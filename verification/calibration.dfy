/**
 * Calibration confidence decay for the pitcher-readiness camera rig
 * (`CalibrationConfidenceDecay` and `CalibrationManager`).
 *
 * Timestamps are seconds on a real-valued clock; the wall clock
 * (`datetime.now()`) is passed in as `now`, and `np.exp` as the function
 * parameter `exp`. Environment dictionaries are maps from key to number;
 * Python's `None` and `{}` are both falsy and behave alike, so both are the
 * empty map here.
 */
module CalibrationDecay {
  import opened Common

  /** `np.log(2)` as a float64. */
  const LN2: real := 0.6931471805599453

  /** Environmental weights: how much faster the rig drifts under each factor. */
  const VIBRATION_WEIGHT: real := 2.0
  const WIND_WEIGHT: real := 1.5
  const TEMPERATURE_WEIGHT: real := 1.3
  const HUMIDITY_WEIGHT: real := 1.2

  const VIBRATION_KEY: string := "rig_vibration_idx"
  const WIND_KEY: string := "wind_mph"
  const TEMPERATURE_KEY: string := "temperature_delta_f"
  const HUMIDITY_KEY: string := "humidity_delta_pct"

  function Lookup(m: map<string, real>, key: string, default: real): real {
    if key in m then m[key] else default
  }

  lemma ProductOfAtLeastOne(a: real, b: real)
    requires a >= 1.0 && b >= 1.0
    ensures a * b >= a && a * b >= 1.0
  {
    assert a * b - a == a * (b - 1.0);
    assert a * (b - 1.0) >= 0.0;
  }

  // ---------------------------------------------------------------- decay model

  datatype DecayModel = DecayModel(initialConfidence: real, halfLifeMinutes: real, minConfidence: real, decayRate: real)

  /** `CalibrationConfidenceDecay.__init__`: the decay rate is ln 2 per half-life. */
  function NewDecayModel(initialConfidence: real, halfLifeMinutes: real, minConfidence: real): (m: DecayModel)
    requires halfLifeMinutes != 0.0
    ensures m.initialConfidence == initialConfidence && m.halfLifeMinutes == halfLifeMinutes
    ensures m.minConfidence == minConfidence
    ensures m.decayRate * halfLifeMinutes == LN2
  {
    DecayModel(initialConfidence, halfLifeMinutes, minConfidence, LN2 / halfLifeMinutes)
  }

  const DEFAULT_DECAY_MODEL: DecayModel := NewDecayModel(0.95, 45.0, 0.5)

  // ---------------------------------------------------------------- environmental factors

  /** Vibration (0-1 scale) speeds decay only strictly above 0.3, and is not capped. */
  function VibrationFactor(env: map<string, real>): (f: real)
    ensures f >= 1.0
    ensures f > 1.0 <==> VIBRATION_KEY in env && env[VIBRATION_KEY] > 0.3
  {
    if VIBRATION_KEY in env && env[VIBRATION_KEY] > 0.3
    then 1.0 + (VIBRATION_WEIGHT - 1.0) * env[VIBRATION_KEY]
    else 1.0
  }

  /** Wind speeds decay only strictly above 15 mph; its factor is capped at the wind weight. */
  function WindFactor(env: map<string, real>): (f: real)
    ensures 1.0 <= f <= WIND_WEIGHT
    ensures f > 1.0 <==> WIND_KEY in env && env[WIND_KEY] > 15.0
  {
    if WIND_KEY in env && env[WIND_KEY] > 15.0
    then 1.0 + (WIND_WEIGHT - 1.0) * Min(env[WIND_KEY] / 30.0, 1.0)
    else 1.0
  }

  /** A temperature swing speeds decay only when it exceeds 5 degrees either way; capped at its weight. */
  function TemperatureFactor(env: map<string, real>): (f: real)
    ensures 1.0 <= f <= TEMPERATURE_WEIGHT
    ensures f > 1.0 <==> TEMPERATURE_KEY in env && Abs(env[TEMPERATURE_KEY]) > 5.0
  {
    if TEMPERATURE_KEY in env && Abs(env[TEMPERATURE_KEY]) > 5.0
    then 1.0 + (TEMPERATURE_WEIGHT - 1.0) * Min(Abs(env[TEMPERATURE_KEY]) / 15.0, 1.0)
    else 1.0
  }

  /** A humidity swing speeds decay only when it exceeds 10 points either way; capped at its weight. */
  function HumidityFactor(env: map<string, real>): (f: real)
    ensures 1.0 <= f <= HUMIDITY_WEIGHT
    ensures f > 1.0 <==> HUMIDITY_KEY in env && Abs(env[HUMIDITY_KEY]) > 10.0
  {
    if HUMIDITY_KEY in env && Abs(env[HUMIDITY_KEY]) > 10.0
    then 1.0 + (HUMIDITY_WEIGHT - 1.0) * Min(Abs(env[HUMIDITY_KEY]) / 30.0, 1.0)
    else 1.0
  }

  /** The combined multiplier of `_adjust_decay_rate`; no factors means no change. */
  function DecayMultiplier(env: map<string, real>): (m: real)
  {
    if env == map[] then 1.0
    else VibrationFactor(env) * WindFactor(env) * TemperatureFactor(env) * HumidityFactor(env)
  }

  /** Every applied factor is at least 1, so the multiplier is at least 1. */
  lemma MultiplierAtLeastOne(env: map<string, real>)
    ensures DecayMultiplier(env) >= 1.0
  {
    if env != map[] {
      var v, w, t, h := VibrationFactor(env), WindFactor(env), TemperatureFactor(env), HumidityFactor(env);
      ProductOfAtLeastOne(v, w);
      ProductOfAtLeastOne(v * w, t);
      ProductOfAtLeastOne(v * w * t, h);
    }
  }

  /**
   * Environmental factors never slow the decay: for a non-negative base rate
   * the adjusted rate is at least the base rate.
   */
  lemma AdjustedRateNotBelowBase(baseRate: real, env: map<string, real>)
    requires baseRate >= 0.0
    ensures baseRate * DecayMultiplier(env) >= baseRate
  {
    MultiplierAtLeastOne(env);
    assert baseRate * DecayMultiplier(env) - baseRate == baseRate * (DecayMultiplier(env) - 1.0);
    assert baseRate * (DecayMultiplier(env) - 1.0) >= 0.0;
  }

  /** The vibration factor has no cap: any bound is exceeded by a large enough vibration index. */
  lemma VibrationUncapped(bound: real)
    ensures VibrationFactor(map[VIBRATION_KEY := Max(bound, 1.0)]) > bound
  {
  }

  /** One step of `_adjust_decay_rate`: the vibration branch. */
  method ApplyVibration(multiplier: real, env: map<string, real>) returns (m: real)
    ensures m == multiplier * VibrationFactor(env)
  {
    m := multiplier;
    if VIBRATION_KEY in env {
      var vibration := env[VIBRATION_KEY];
      if vibration > 0.3 {
        m := m * (1.0 + (VIBRATION_WEIGHT - 1.0) * vibration);
      }
    }
  }

  /** One step of `_adjust_decay_rate`: the wind branch. */
  method ApplyWind(multiplier: real, env: map<string, real>) returns (m: real)
    ensures m == multiplier * WindFactor(env)
  {
    m := multiplier;
    if WIND_KEY in env {
      var wind := env[WIND_KEY];
      if wind > 15.0 {
        var windFactor := Min(wind / 30.0, 1.0);
        m := m * (1.0 + (WIND_WEIGHT - 1.0) * windFactor);
      }
    }
  }

  /** One step of `_adjust_decay_rate`: the temperature branch. */
  method ApplyTemperature(multiplier: real, env: map<string, real>) returns (m: real)
    ensures m == multiplier * TemperatureFactor(env)
  {
    m := multiplier;
    if TEMPERATURE_KEY in env {
      var tempDelta := Abs(env[TEMPERATURE_KEY]);
      if tempDelta > 5.0 {
        var tempFactor := Min(tempDelta / 15.0, 1.0);
        m := m * (1.0 + (TEMPERATURE_WEIGHT - 1.0) * tempFactor);
      }
    }
  }

  /** One step of `_adjust_decay_rate`: the humidity branch. */
  method ApplyHumidity(multiplier: real, env: map<string, real>) returns (m: real)
    ensures m == multiplier * HumidityFactor(env)
  {
    m := multiplier;
    if HUMIDITY_KEY in env {
      var humidityDelta := Abs(env[HUMIDITY_KEY]);
      if humidityDelta > 10.0 {
        var humidityFactor := Min(humidityDelta / 30.0, 1.0);
        m := m * (1.0 + (HUMIDITY_WEIGHT - 1.0) * humidityFactor);
      }
    }
  }

  /**
   * `_adjust_decay_rate`: the base rate unchanged without factors, otherwise
   * the base rate times a multiplier updated factor by factor.
   */
  method AdjustDecayRate(baseRate: real, env: map<string, real>) returns (rate: real)
    ensures rate == baseRate * DecayMultiplier(env)
    ensures env == map[] ==> rate == baseRate
  {
    if env == map[] {
      return baseRate;
    }
    var multiplier := 1.0;
    multiplier := ApplyVibration(multiplier, env);
    multiplier := ApplyWind(multiplier, env);
    multiplier := ApplyTemperature(multiplier, env);
    multiplier := ApplyHumidity(multiplier, env);
    rate := baseRate * multiplier;
  }

  // ---------------------------------------------------------------- confidence

  /** The decay rate of `m` adjusted for the environment `env`. */
  function EffectiveRate(m: DecayModel, env: map<string, real>): real {
    m.decayRate * DecayMultiplier(env)
  }

  /** `np.exp` at `x`; every use of the exponential goes through here. */
  function Exp(exp: real -> real, x: real): real {
    exp(x)
  }

  /** Exponential decay: `initial * exp(-rate * minutes)`. */
  function Decayed(initial: real, rate: real, minutes: real, exp: real -> real): real {
    initial * Exp(exp, -rate * minutes)
  }

  /**
   * The confidence after `minutesElapsed` minutes: exponential decay at the
   * environment-adjusted rate, floored at the model's minimum.
   */
  function Confidence(m: DecayModel, minutesElapsed: real, env: map<string, real>, exp: real -> real): (c: real)
    ensures c >= m.minConfidence
    ensures c >= Decayed(m.initialConfidence, EffectiveRate(m, env), minutesElapsed, exp)
    ensures c == m.minConfidence || c == Decayed(m.initialConfidence, EffectiveRate(m, env), minutesElapsed, exp)
  {
    Max(Decayed(m.initialConfidence, EffectiveRate(m, env), minutesElapsed, exp), m.minConfidence)
  }

  /** Decay at a non-negative rate over non-negative time never exceeds the starting value. */
  lemma DecayedNotAboveInitial(initial: real, rate: real, minutes: real, exp: real -> real)
    requires forall x :: x <= 0.0 ==> Exp(exp, x) <= 1.0
    requires initial >= 0.0 && rate >= 0.0 && minutes >= 0.0
    ensures Decayed(initial, rate, minutes, exp) <= initial
  {
    NonNegativeProduct(rate, minutes);
    assert -rate * minutes == -(rate * minutes);
    var e := Exp(exp, -rate * minutes);
    NonNegativeProduct(initial, 1.0 - e);
    assert initial - initial * e == initial * (1.0 - e);
  }

  /**
   * With an `exp` that is at most 1 on non-positive arguments, a non-negative
   * rate and elapsed time, confidence never rises above the larger of the
   * initial confidence and the floor.
   */
  lemma ConfidenceNotAboveStart(m: DecayModel, minutesElapsed: real, env: map<string, real>, exp: real -> real)
    requires forall x :: x <= 0.0 ==> Exp(exp, x) <= 1.0
    requires m.decayRate >= 0.0 && m.initialConfidence >= 0.0 && minutesElapsed >= 0.0
    ensures Confidence(m, minutesElapsed, env, exp) <= Max(m.initialConfidence, m.minConfidence)
  {
    AdjustedRateNotBelowBase(m.decayRate, env);
    assert EffectiveRate(m, env) >= 0.0;
    DecayedNotAboveInitial(m.initialConfidence, EffectiveRate(m, env), minutesElapsed, exp);
    assert Decayed(m.initialConfidence, EffectiveRate(m, env), minutesElapsed, exp) <= m.initialConfidence;
    assert Confidence(m, minutesElapsed, env, exp) == Max(Decayed(m.initialConfidence, EffectiveRate(m, env), minutesElapsed, exp), m.minConfidence);
  }

  /** With a monotone `exp`, decay at a non-negative rate never increases over time. */
  lemma DecayedNonIncreasing(initial: real, rate: real, t1: real, t2: real, exp: real -> real)
    requires forall x, y :: x <= y ==> Exp(exp, x) <= Exp(exp, y)
    requires initial >= 0.0 && rate >= 0.0 && t1 <= t2
    ensures Decayed(initial, rate, t2, exp) <= Decayed(initial, rate, t1, exp)
  {
    NonNegativeProduct(rate, t2 - t1);
    assert -rate * t1 - -rate * t2 == rate * (t2 - t1);
    var e1, e2 := Exp(exp, -rate * t1), Exp(exp, -rate * t2);
    NonNegativeProduct(initial, e1 - e2);
    assert initial * e1 - initial * e2 == initial * (e1 - e2);
  }

  /**
   * With a monotone `exp`, confidence never increases as time passes under
   * the same environment.
   */
  lemma ConfidenceNonIncreasing(m: DecayModel, t1: real, t2: real, env: map<string, real>, exp: real -> real)
    requires forall x, y :: x <= y ==> Exp(exp, x) <= Exp(exp, y)
    requires m.decayRate >= 0.0 && m.initialConfidence >= 0.0 && t1 <= t2
    ensures Confidence(m, t2, env, exp) <= Confidence(m, t1, env, exp)
  {
    AdjustedRateNotBelowBase(m.decayRate, env);
    assert EffectiveRate(m, env) >= 0.0;
    DecayedNonIncreasing(m.initialConfidence, EffectiveRate(m, env), t1, t2, exp);
  }

  /** `calculate_confidence`, with timestamps in seconds. */
  method CalculateConfidence(m: DecayModel, lastCalibrationTs: real, currentTs: real,
                             env: map<string, real>, exp: real -> real) returns (c: real)
    ensures c == Confidence(m, (currentTs - lastCalibrationTs) / 60.0, env, exp)
    ensures c >= m.minConfidence
  {
    var minutesElapsed := (currentTs - lastCalibrationTs) / 60.0;
    var effectiveDecayRate := AdjustDecayRate(m.decayRate, env);
    c := Decayed(m.initialConfidence, effectiveDecayRate, minutesElapsed, exp);
    assert effectiveDecayRate == EffectiveRate(m, env);
    c := Max(c, m.minConfidence);
  }

  // ---------------------------------------------------------------- actions and recalibration

  datatype Action = NONE | REBASELINE | FALLBACK | ALERT

  /** How much intervention an action asks for, 0 for NONE. */
  function Severity(a: Action): nat {
    match a
    case NONE => 0
    case REBASELINE => 1
    case FALLBACK => 2
    case ALERT => 3
  }

  /** `get_action`: four bands, closed at their lower threshold. */
  function GetAction(confidence: real): (a: Action)
    ensures a == NONE <==> confidence >= 0.8
    ensures a == REBASELINE <==> 0.7 <= confidence < 0.8
    ensures a == FALLBACK <==> 0.6 <= confidence < 0.7
    ensures a == ALERT <==> confidence < 0.6
  {
    if confidence >= 0.8 then NONE
    else if confidence >= 0.7 then REBASELINE
    else if confidence >= 0.6 then FALLBACK
    else ALERT
  }

  /** Higher confidence never asks for a more severe action. */
  lemma ActionSeverityMonotone(c1: real, c2: real)
    requires c1 <= c2
    ensures Severity(GetAction(c2)) <= Severity(GetAction(c1))
  {
  }

  /** Why recalibration is or is not recommended, with the values the message reports. */
  datatype Reason =
    | LowConfidence(confidence: real)
    | LowQaDecliningCalibration(qaScore: real, confidence: real)
    | HighLatencyDrift(lateDataFrac: real, confidence: real)
    | CalibrationAcceptable
    | NoCalibrationFound

  /**
   * `recommend_recalibration`: three rules checked in order, the first that
   * fires gives the reason; "acceptable" exactly when none fires.
   */
  function RecommendRecalibration(confidence: real, qaScore: real, lateDataFrac: real): (r: (bool, Reason))
    ensures r.0 <==> !r.1.CalibrationAcceptable?
    ensures !r.1.NoCalibrationFound?
    ensures r.1.LowConfidence? <==> confidence < 0.6
    ensures r.1.LowQaDecliningCalibration? <==> 0.6 <= confidence < 0.8 && qaScore < 0.7
    ensures r.1.HighLatencyDrift? <==> 0.6 <= confidence < 0.75 && qaScore >= 0.7 && lateDataFrac > 0.3
    ensures r.1.CalibrationAcceptable? <==>
      !(confidence < 0.6) && !(qaScore < 0.7 && confidence < 0.8) && !(lateDataFrac > 0.3 && confidence < 0.75)
  {
    if confidence < 0.6 then (true, LowConfidence(confidence))
    else if qaScore < 0.7 && confidence < 0.8 then (true, LowQaDecliningCalibration(qaScore, confidence))
    else if lateDataFrac > 0.3 && confidence < 0.75 then (true, HighLatencyDrift(lateDataFrac, confidence))
    else (false, CalibrationAcceptable)
  }

  /**
   * Below 0.6 recalibration is always recommended and from 0.8 up never,
   * whatever the QA score and late fraction; so the recommendation agrees
   * with the ALERT and NONE actions.
   */
  lemma RecommendationFollowsConfidence(confidence: real, qaScore: real, lateDataFrac: real)
    ensures confidence < 0.6 ==> RecommendRecalibration(confidence, qaScore, lateDataFrac).0
    ensures confidence >= 0.8 ==> !RecommendRecalibration(confidence, qaScore, lateDataFrac).0
    ensures GetAction(confidence) == ALERT ==> RecommendRecalibration(confidence, qaScore, lateDataFrac).0
    ensures GetAction(confidence) == NONE ==> !RecommendRecalibration(confidence, qaScore, lateDataFrac).0
  {
  }

  // ---------------------------------------------------------------- manager

  /** Defaults for readings missing from an environment snapshot. */
  const DEFAULT_TEMPERATURE_F: real := 70.0
  const DEFAULT_HUMIDITY_PCT: real := 50.0
  const DEFAULT_QA_SCORE: real := 0.9
  const DEFAULT_LATE_FRACTION: real := 0.05

  /**
   * The environmental factors `get_current_confidence` derives from a new
   * snapshot: none without a snapshot; vibration and wind from the snapshot;
   * temperature and humidity deltas only when a previous snapshot exists.
   */
  function EnvFactorsFrom(snapshot: map<string, real>, last: map<string, real>): (f: map<string, real>)
    ensures snapshot == map[] ==> f == map[]
    ensures f.Keys <= {VIBRATION_KEY, WIND_KEY, TEMPERATURE_KEY, HUMIDITY_KEY}
    ensures snapshot != map[] ==>
      && VIBRATION_KEY in f && f[VIBRATION_KEY] == Lookup(snapshot, "rig_vibration_idx_0_1", 0.0)
      && WIND_KEY in f && f[WIND_KEY] == Lookup(snapshot, "wind_mph", 0.0)
    ensures TEMPERATURE_KEY in f <==> snapshot != map[] && last != map[]
    ensures HUMIDITY_KEY in f <==> snapshot != map[] && last != map[]
    ensures TEMPERATURE_KEY in f ==>
      f[TEMPERATURE_KEY] == Lookup(snapshot, "temperature_f", DEFAULT_TEMPERATURE_F) - Lookup(last, "temperature_f", DEFAULT_TEMPERATURE_F)
    ensures HUMIDITY_KEY in f ==>
      f[HUMIDITY_KEY] == Lookup(snapshot, "humidity_pct", DEFAULT_HUMIDITY_PCT) - Lookup(last, "humidity_pct", DEFAULT_HUMIDITY_PCT)
  {
    if snapshot == map[] then map[]
    else
      var deltas: map<string, real> :=
        if last == map[] then map[]
        else map[TEMPERATURE_KEY := Lookup(snapshot, "temperature_f", DEFAULT_TEMPERATURE_F) - Lookup(last, "temperature_f", DEFAULT_TEMPERATURE_F),
                 HUMIDITY_KEY := Lookup(snapshot, "humidity_pct", DEFAULT_HUMIDITY_PCT) - Lookup(last, "humidity_pct", DEFAULT_HUMIDITY_PCT)];
      deltas[VIBRATION_KEY := Lookup(snapshot, "rig_vibration_idx_0_1", 0.0)][WIND_KEY := Lookup(snapshot, "wind_mph", 0.0)]
  }

  datatype CalibrationEvent = CalibrationEvent(venueId: string, sessionId: string, timestamp: real, confidence: real)

  /** The status dictionary; the two optional entries are missing when nothing was ever calibrated. */
  datatype Status = Status(
    confidence: real, action: Action, reason: Reason, shouldRecalibrate: bool,
    minutesSinceCalibration: Option<real>, envFactors: Option<map<string, real>>)

  const NO_CALIBRATION_STATUS: Status := Status(0.5, ALERT, NoCalibrationFound, true, None, None)

  /**
   * What `get_current_confidence` reports: the fixed no-calibration status
   * before any calibration; afterwards the floored decayed confidence, the
   * action and recommendation the rules give for it, and the elapsed minutes.
   */
  function StatusOf(m: DecayModel, lastCalibrationTs: Option<real>, lastSnapshot: map<string, real>,
                    currentTs: real, snapshot: map<string, real>, exp: real -> real): (s: Status)
    ensures lastCalibrationTs.None? ==> s == NO_CALIBRATION_STATUS
    ensures lastCalibrationTs.Some? ==>
      && s.confidence >= m.minConfidence
      && s.action == GetAction(s.confidence)
      && s.reason != NoCalibrationFound
      && (s.shouldRecalibrate <==> s.reason != CalibrationAcceptable)
      && s.minutesSinceCalibration == Some((currentTs - lastCalibrationTs.value) / 60.0)
      && s.envFactors == Some(EnvFactorsFrom(snapshot, lastSnapshot))
    ensures lastCalibrationTs.Some? ==>
      s.confidence == Confidence(m, (currentTs - lastCalibrationTs.value) / 60.0, EnvFactorsFrom(snapshot, lastSnapshot), exp)
    ensures lastCalibrationTs.Some? ==>
      (s.shouldRecalibrate, s.reason) == RecommendRecalibration(s.confidence,
        Lookup(snapshot, "tracking_qa", DEFAULT_QA_SCORE), Lookup(snapshot, "late_data_frac", DEFAULT_LATE_FRACTION))
  {
    match lastCalibrationTs
    case None => NO_CALIBRATION_STATUS
    case Some(last) =>
      var factors := EnvFactorsFrom(snapshot, lastSnapshot);
      var minutes := (currentTs - last) / 60.0;
      var confidence := Confidence(m, minutes, factors, exp);
      var recommendation := RecommendRecalibration(confidence,
        Lookup(snapshot, "tracking_qa", DEFAULT_QA_SCORE), Lookup(snapshot, "late_data_frac", DEFAULT_LATE_FRACTION));
      Status(confidence, GetAction(confidence), recommendation.1, recommendation.0, Some(minutes), Some(factors))
  }

  /** The hard-coded no-calibration status is what the rules themselves give for confidence 0.5. */
  lemma NoCalibrationStatusAgreesWithRules(qaScore: real, lateDataFrac: real)
    ensures NO_CALIBRATION_STATUS.action == GetAction(NO_CALIBRATION_STATUS.confidence)
    ensures NO_CALIBRATION_STATUS.shouldRecalibrate == RecommendRecalibration(NO_CALIBRATION_STATUS.confidence, qaScore, lateDataFrac).0
  {
  }

  /** `CalibrationManager`: the calibration lifecycle of one rig. */
  class CalibrationManager {
    const decayModel: DecayModel
    var calibrationHistory: seq<CalibrationEvent>
    var lastCalibrationTs: Option<real>
    var lastEnvSnapshot: map<string, real>

    constructor ()
      ensures decayModel == DEFAULT_DECAY_MODEL
      ensures calibrationHistory == [] && lastCalibrationTs == None && lastEnvSnapshot == map[]
    {
      decayModel := DEFAULT_DECAY_MODEL;
      calibrationHistory := [];
      lastCalibrationTs := None;
      lastEnvSnapshot := map[];
    }

    /**
     * `update_calibration`: records one event at the current time `now`; the
     * recorded confidence defaults to 0.95.
     */
    method UpdateCalibration(venueId: string, sessionId: string, now: real, confidence: real := 0.95)
      modifies this`calibrationHistory, this`lastCalibrationTs
      ensures lastCalibrationTs == Some(now)
      ensures calibrationHistory == old(calibrationHistory) + [CalibrationEvent(venueId, sessionId, now, confidence)]
      ensures |calibrationHistory| == |old(calibrationHistory)| + 1
    {
      lastCalibrationTs := Some(now);
      calibrationHistory := calibrationHistory + [CalibrationEvent(venueId, sessionId, now, confidence)];
    }

    /**
     * `get_current_confidence`: `currentTs` defaults to `now`. A non-empty
     * snapshot replaces the stored one, but only once a calibration exists
     * (before that the method returns early).
     */
    method GetCurrentConfidence(currentTs: Option<real>, envSnapshot: map<string, real>, now: real, exp: real -> real)
      returns (s: Status)
      modifies this`lastEnvSnapshot
      ensures s == StatusOf(decayModel, lastCalibrationTs, old(lastEnvSnapshot),
                            if currentTs.Some? then currentTs.value else now, envSnapshot, exp)
      ensures lastEnvSnapshot ==
        if lastCalibrationTs.Some? && envSnapshot != map[] then envSnapshot else old(lastEnvSnapshot)
    {
      if lastCalibrationTs.None? {
        return NO_CALIBRATION_STATUS;
      }
      var last := lastCalibrationTs.value;
      var current := if currentTs.Some? then currentTs.value else now;
      var envFactors := EnvFactorsFrom(envSnapshot, lastEnvSnapshot);
      if envSnapshot != map[] {
        lastEnvSnapshot := envSnapshot;
      }
      var confidence := CalculateConfidence(decayModel, last, current, envFactors, exp);
      var action := GetAction(confidence);
      var qaScore := Lookup(envSnapshot, "tracking_qa", DEFAULT_QA_SCORE);
      var lateFrac := Lookup(envSnapshot, "late_data_frac", DEFAULT_LATE_FRACTION);
      var recommendation := RecommendRecalibration(confidence, qaScore, lateFrac);
      s := Status(confidence, action, recommendation.1, recommendation.0,
                  Some((current - last) / 60.0), Some(envFactors));
    }
  }
}
