/**
 * The Monte Carlo revenue engine (`BlazeIntelMonteCarlo`): parameter ranges,
 * the per-trial composition of the streams into the trial table, and the
 * two summarisers guarded by the engine's `results` state.
 *
 * Randomness enters as the raw draws of each sampler call (see `Sampling`);
 * the pandas statistics (`mean`, `median`, `std`, `quantile`, `corr`) enter
 * as function-valued parameters.
 */
module Engine {
  import opened Common
  import opened Sampling
  import opened Streams
  import opened Summaries

  datatype IntRange = IntRange(lo: int, hi: int)

  /** `SimulationParameters`: one (low, high) range per factor. */
  datatype Parameters = Parameters(
    basicPrice: Range, proPrice: Range, enterprisePrice: Range,
    basicSubscribers: IntRange, proSubscribers: IntRange, enterpriseSubscribers: IntRange,
    apiMonthlyBase: Range, apiPerCallRevenue: Range, monthlyApiCalls: IntRange,
    projectsPerMonth: IntRange, projectValue: Range,
    annualLicensingDeals: IntRange, licensingValue: Range,
    infrastructureMonthly: Range, dataAcquisition: Range, personnelAllocation: Range, marketingMonthly: Range,
    seasonalityFactor: Range, marketGrowthRate: Range, churnRate: Range,
    automationSavings: Range, platformEfficiency: Range,
    baseballImpact: Range, footballImpact: Range, basketballImpact: Range, trackFieldImpact: Range)

  const DEFAULT_PARAMETERS: Parameters := Parameters(
    Range(29.0, 49.0), Range(99.0, 149.0), Range(499.0, 999.0),
    IntRange(50, 300), IntRange(20, 100), IntRange(5, 25),
    Range(500.0, 2000.0), Range(0.001, 0.01), IntRange(100000, 1000000),
    IntRange(1, 5), Range(2000.0, 15000.0),
    IntRange(2, 8), Range(10000.0, 50000.0),
    Range(500.0, 1500.0), Range(1000.0, 3000.0), Range(2000.0, 5000.0), Range(500.0, 2000.0),
    Range(0.7, 1.3), Range(0.98, 1.15), Range(0.02, 0.08),
    Range(0.1, 0.3), Range(1.0, 1.5),
    Range(0.9, 1.4), Range(0.8, 1.3), Range(0.7, 1.2), Range(0.5, 0.9))

  /** Skew of the project-value draw; every other bounded-normal draw is unskewed. */
  const PROJECT_VALUE_SKEW: real := 0.2
  /** Hourly value used to express profit as hours saved. */
  const HOURLY_VALUE: real := 55.0

  /**
   * The raw draws of one run, one sequence per sampler call: unit draws for
   * uniform factors, standard-normal draws for bounded-normal factors and
   * integers for integer factors.
   */
  datatype Draws = Draws(
    basicSubscribers: seq<int>, proSubscribers: seq<int>, enterpriseSubscribers: seq<int>,
    basicPrice: seq<real>, proPrice: seq<real>, enterprisePrice: seq<real>, churn: seq<real>,
    apiBase: seq<real>, apiPerCall: seq<real>, apiCalls: seq<int>,
    projects: seq<int>, projectValue: seq<real>,
    licensingDeals: seq<int>, licensingValue: seq<real>,
    infrastructure: seq<real>, dataAcquisition: seq<real>, personnel: seq<real>, marketing: seq<real>,
    automation: seq<real>,
    seasonality: seq<real>, growth: seq<real>, efficiency: seq<real>,
    baseball: seq<real>, football: seq<real>, basketball: seq<real>, track: seq<real>)

  ghost predicate IntDraws(r: IntRange, s: seq<int>, n: nat) {
    |s| == n && (r.lo <= r.hi ==> forall i :: 0 <= i < |s| ==> r.lo <= s[i] < r.hi + 1)
  }

  ghost predicate Units(s: seq<real>, n: nat) {
    |s| == n && UnitDraws(s)
  }

  /** The draws of one run of `n` trials, each as numpy would produce it. */
  ghost predicate DrawsFit(p: Parameters, d: Draws, n: nat) {
    && IntDraws(p.basicSubscribers, d.basicSubscribers, n)
    && IntDraws(p.proSubscribers, d.proSubscribers, n)
    && IntDraws(p.enterpriseSubscribers, d.enterpriseSubscribers, n)
    && Units(d.basicPrice, n) && Units(d.proPrice, n) && Units(d.enterprisePrice, n) && Units(d.churn, n)
    && Units(d.apiBase, n) && Units(d.apiPerCall, n) && IntDraws(p.monthlyApiCalls, d.apiCalls, n)
    && IntDraws(p.projectsPerMonth, d.projects, n) && |d.projectValue| == n
    && IntDraws(p.annualLicensingDeals, d.licensingDeals, n) && |d.licensingValue| == n
    && Units(d.infrastructure, n) && |d.dataAcquisition| == n && |d.personnel| == n
    && Units(d.marketing, n) && Units(d.automation, n)
    && Units(d.seasonality, n) && Units(d.growth, n) && Units(d.efficiency, n)
    && Units(d.baseball, n) && Units(d.football, n) && Units(d.basketball, n) && Units(d.track, n)
  }

  /** No integer or bounded-normal range is inverted, so no sampler raises. */
  predicate Sampleable(p: Parameters) {
    && p.basicSubscribers.lo <= p.basicSubscribers.hi
    && p.proSubscribers.lo <= p.proSubscribers.hi
    && p.enterpriseSubscribers.lo <= p.enterpriseSubscribers.hi
    && p.monthlyApiCalls.lo <= p.monthlyApiCalls.hi
    && p.projectsPerMonth.lo <= p.projectsPerMonth.hi
    && p.projectValue.lo <= p.projectValue.hi
    && p.annualLicensingDeals.lo <= p.annualLicensingDeals.hi
    && p.licensingValue.lo <= p.licensingValue.hi
    && p.dataAcquisition.lo <= p.dataAcquisition.hi
    && p.personnelAllocation.lo <= p.personnelAllocation.hi
  }

  function Uniform(r: Range, u: seq<real>): (s: seq<real>)
    requires UnitDraws(u)
    ensures |s| == |u| && (r.lo <= r.hi ==> Within(s, r.lo, r.hi))
  {
    SampleUniform(r.lo, r.hi, u)
  }

  function Integers(r: IntRange, s: seq<int>, ghost n: nat): (x: seq<int>)
    requires IntDraws(r, s, n) && r.lo <= r.hi
    ensures |x| == n && IntWithin(x, r.lo, r.hi)
  {
    SampleInteger(r.lo, r.hi, s).value
  }

  function Normal(r: Range, skew: real, z: seq<real>): (s: seq<real>)
    requires r.lo <= r.hi
    ensures |s| == |z| && Within(s, r.lo, r.hi)
  {
    SampleNormalBounded(r.lo, r.hi, skew, z).value
  }

  // ---------------------------------------------------------------- streams of one run

  function SubscriptionOf(p: Parameters, d: Draws, n: nat): (s: SubscriptionRevenue)
    requires DrawsFit(p, d, n) && Sampleable(p)
    ensures s.HasLength(n)
  {
    SimulateSubscriptionRevenue(
      Integers(p.basicSubscribers, d.basicSubscribers, n),
      Integers(p.proSubscribers, d.proSubscribers, n),
      Integers(p.enterpriseSubscribers, d.enterpriseSubscribers, n),
      Uniform(p.basicPrice, d.basicPrice), Uniform(p.proPrice, d.proPrice),
      Uniform(p.enterprisePrice, d.enterprisePrice), Uniform(p.churnRate, d.churn))
  }

  function ApiOf(p: Parameters, d: Draws, n: nat): (a: ApiRevenue)
    requires DrawsFit(p, d, n) && Sampleable(p)
    ensures |a.totalApi| == |a.apiCalls| == n && IntWithin(a.apiCalls, p.monthlyApiCalls.lo, p.monthlyApiCalls.hi)
  {
    SimulateApiRevenue(Uniform(p.apiMonthlyBase, d.apiBase), Uniform(p.apiPerCallRevenue, d.apiPerCall),
                       Integers(p.monthlyApiCalls, d.apiCalls, n))
  }

  function ProjectOf(p: Parameters, d: Draws, n: nat): (pr: ProjectRevenue)
    requires DrawsFit(p, d, n) && Sampleable(p)
    ensures |pr.totalProjects| == |pr.projectCount| == n
    ensures IntWithin(pr.projectCount, p.projectsPerMonth.lo, p.projectsPerMonth.hi)
  {
    SimulateProjectRevenue(Integers(p.projectsPerMonth, d.projects, n),
                           Normal(p.projectValue, PROJECT_VALUE_SKEW, d.projectValue))
  }

  function LicensingOf(p: Parameters, d: Draws, n: nat): (l: LicensingRevenue)
    requires DrawsFit(p, d, n) && Sampleable(p)
    ensures |l.monthlyLicensing| == n
  {
    SimulateLicensingRevenue(Integers(p.annualLicensingDeals, d.licensingDeals, n),
                             Normal(p.licensingValue, 0.0, d.licensingValue))
  }

  function CostsOfRun(p: Parameters, d: Draws, n: nat): (c: Costs)
    requires DrawsFit(p, d, n) && Sampleable(p)
    ensures |c.totalCosts| == |c.infrastructure| == |c.dataAcquisition| == |c.personnel| ==
            |c.marketing| == |c.automationSavings| == n
  {
    CostsOf(Uniform(p.infrastructureMonthly, d.infrastructure),
            Normal(p.dataAcquisition, 0.0, d.dataAcquisition),
            Normal(p.personnelAllocation, 0.0, d.personnel),
            Uniform(p.marketingMonthly, d.marketing),
            Uniform(p.automationSavings, d.automation))
  }

  /** Row-sum of the four revenue stream totals (before the market adjustment). */
  function GrossRevenue(s: SubscriptionRevenue, a: ApiRevenue, pr: ProjectRevenue, l: LicensingRevenue, n: nat): (g: seq<real>)
    requires s.HasLength(n) && |a.totalApi| == |pr.totalProjects| == |l.monthlyLicensing| == n
    ensures |g| == n
    ensures forall i :: 0 <= i < n ==>
      g[i] == s.totalSubscription[i] + a.totalApi[i] + pr.totalProjects[i] + l.monthlyLicensing[i]
  {
    seq(n, i requires 0 <= i < n => s.totalSubscription[i] + a.totalApi[i] + pr.totalProjects[i] + l.monthlyLicensing[i])
  }

  function AdjustedOf(p: Parameters, d: Draws, n: nat, gross: seq<real>): (r: seq<real>)
    requires DrawsFit(p, d, n) && |gross| == n
    ensures |r| == n
  {
    ApplyMarketFactors(gross,
      Uniform(p.seasonalityFactor, d.seasonality), Uniform(p.marketGrowthRate, d.growth),
      Uniform(p.platformEfficiency, d.efficiency),
      Uniform(p.baseballImpact, d.baseball), Uniform(p.footballImpact, d.football),
      Uniform(p.basketballImpact, d.basketball), Uniform(p.trackFieldImpact, d.track))
  }

  // ---------------------------------------------------------------- the trial table

  /** The `results` DataFrame: one column per outcome, one row per trial. */
  datatype TrialTable = TrialTable(
    subscriptionRevenue: seq<real>, apiRevenue: seq<real>, projectRevenue: seq<real>, licensingRevenue: seq<real>,
    totalCosts: seq<real>, infrastructureCost: seq<real>, dataCost: seq<real>, personnelCost: seq<real>,
    marketingCost: seq<real>,
    grossRevenue: seq<real>, adjustedRevenue: seq<real>, grossProfit: seq<real>,
    profitMargin: seq<Float>, roiPercent: seq<Float>, monthlyValue: seq<real>, hoursSaved: seq<real>,
    totalSubscribers: seq<real>, apiCalls: seq<int>, projectCount: seq<int>, automationSavings: seq<real>)
  {
    /** Every column holds one value per trial. */
    ghost predicate HasLength(n: nat) {
      |subscriptionRevenue| == n && |apiRevenue| == n && |projectRevenue| == n && |licensingRevenue| == n &&
      |totalCosts| == n && |infrastructureCost| == n && |dataCost| == n && |personnelCost| == n &&
      |marketingCost| == n && |grossRevenue| == n && |adjustedRevenue| == n && |grossProfit| == n &&
      |profitMargin| == n && |roiPercent| == n && |monthlyValue| == n && |hoursSaved| == n &&
      |totalSubscribers| == n && |apiCalls| == n && |projectCount| == n && |automationSavings| == n
    }
  }

  /** `(gross_profit / total_costs) * 100`: an infinity or NaN stays non-finite. */
  function Percent(q: Float): (r: Float)
    ensures r.NonFinite? <==> q.NonFinite?
    ensures r.Finite? ==> r.v == 100.0 * q.v
  {
    match q
    case Finite(v) => Finite(v * 100.0)
    case NonFinite => NonFinite
  }

  /**
   * The aggregator of `run_simulation`: profit is adjusted revenue minus total
   * cost, the margin and ROI are its ratios to revenue and to cost (non-finite
   * exactly where that denominator is zero), monthly value is the profit
   * itself, and hours saved is the profit at 55 per hour.
   */
  function Aggregate(s: SubscriptionRevenue, a: ApiRevenue, pr: ProjectRevenue, l: LicensingRevenue, c: Costs,
                     gross: seq<real>, adjusted: seq<real>, n: nat): (t: TrialTable)
    requires s.HasLength(n) && |a.totalApi| == |a.apiCalls| == |pr.totalProjects| == |pr.projectCount| == n
    requires |l.monthlyLicensing| == |gross| == |adjusted| == n
    requires |c.totalCosts| == |c.infrastructure| == |c.dataAcquisition| == |c.personnel| ==
             |c.marketing| == |c.automationSavings| == n
    ensures t.HasLength(n)
    ensures t.subscriptionRevenue == s.totalSubscription && t.apiRevenue == a.totalApi
    ensures t.projectRevenue == pr.totalProjects && t.licensingRevenue == l.monthlyLicensing
    ensures t.totalCosts == c.totalCosts && t.automationSavings == c.automationSavings
    ensures t.infrastructureCost == c.infrastructure && t.dataCost == c.dataAcquisition
    ensures t.personnelCost == c.personnel && t.marketingCost == c.marketing
    ensures t.grossRevenue == gross && t.adjustedRevenue == adjusted
    ensures t.totalSubscribers == s.totalSubscribers && t.apiCalls == a.apiCalls && t.projectCount == pr.projectCount
    ensures t.monthlyValue == t.grossProfit
    ensures forall i :: 0 <= i < n ==>
      && t.grossProfit[i] == adjusted[i] - c.totalCosts[i]
      && HOURLY_VALUE * t.hoursSaved[i] == t.grossProfit[i]
      && (t.profitMargin[i].NonFinite? <==> adjusted[i] == 0.0)
      && (t.profitMargin[i].Finite? ==> t.profitMargin[i].v * adjusted[i] == t.grossProfit[i])
      && (t.roiPercent[i].NonFinite? <==> c.totalCosts[i] == 0.0)
      && (t.roiPercent[i].Finite? ==> t.roiPercent[i].v * c.totalCosts[i] == 100.0 * t.grossProfit[i])
  {
    var profit := seq(n, i requires 0 <= i < n => adjusted[i] - c.totalCosts[i]);
    TrialTable(
      s.totalSubscription, a.totalApi, pr.totalProjects, l.monthlyLicensing,
      c.totalCosts, c.infrastructure, c.dataAcquisition, c.personnel, c.marketing,
      gross, adjusted, profit,
      seq(n, i requires 0 <= i < n => Divide(profit[i], adjusted[i])),
      seq(n, i requires 0 <= i < n => Percent(Divide(profit[i], c.totalCosts[i]))),
      profit,
      seq(n, i requires 0 <= i < n => profit[i] / HOURLY_VALUE),
      s.totalSubscribers, a.apiCalls, pr.projectCount, c.automationSavings)
  }

  /**
   * What `run_simulation` computes from the parameters and the draws: an error
   * exactly when the trial count is negative (numpy refuses a negative size)
   * or some integer or bounded-normal range is inverted, otherwise a table
   * with `n` rows.
   */
  function Simulate(p: Parameters, d: Draws, n: int): (r: Result<TrialTable>)
    requires n >= 0 ==> DrawsFit(p, d, n)
    ensures r.Err? <==> n < 0 || !Sampleable(p)
    ensures r.Ok? ==> n >= 0 && r.value.HasLength(n)
  {
    if n < 0 || !Sampleable(p) then Err(ValueError)
    else
      var s, a, pr, l := SubscriptionOf(p, d, n), ApiOf(p, d, n), ProjectOf(p, d, n), LicensingOf(p, d, n);
      var gross := GrossRevenue(s, a, pr, l, n);
      Ok(Aggregate(s, a, pr, l, CostsOfRun(p, d, n), gross, AdjustedOf(p, d, n, gross), n))
  }

  // ---------------------------------------------------------------- properties of a run

  /** The default parameter ranges never make a sampler raise. */
  lemma DefaultParametersSampleable(d: Draws, n: nat)
    requires DrawsFit(DEFAULT_PARAMETERS, d, n)
    ensures Simulate(DEFAULT_PARAMETERS, d, n).Ok?
  {
  }

  /**
   * Per trial of a successful run: gross revenue is the sum of the four
   * stream totals, adjusted revenue is gross revenue times the market
   * multipliers, and profit is adjusted revenue minus total cost.
   */
  lemma RunComposesStreams(p: Parameters, d: Draws, n: nat, i: nat)
    requires DrawsFit(p, d, n) && Sampleable(p) && i < n
    ensures var t := Simulate(p, d, n).value;
      && t.grossRevenue[i] == t.subscriptionRevenue[i] + t.apiRevenue[i] + t.projectRevenue[i] + t.licensingRevenue[i]
      && t.adjustedRevenue[i] == AdjustedOf(p, d, n, t.grossRevenue)[i]
      && t.grossProfit[i] == t.adjustedRevenue[i] - t.totalCosts[i]
      && t.monthlyValue[i] == t.grossProfit[i]
      && t.hoursSaved[i] == t.grossProfit[i] / HOURLY_VALUE
      && t.totalCosts[i] == t.infrastructureCost[i] + t.dataCost[i] + t.personnelCost[i] + t.marketingCost[i]
  {
  }

  /** The sampled columns of a successful run lie in their parameter ranges. */
  lemma RunSamplesInRange(p: Parameters, d: Draws, n: nat)
    requires DrawsFit(p, d, n) && Sampleable(p)
    ensures var t := Simulate(p, d, n).value;
      && IntWithin(t.apiCalls, p.monthlyApiCalls.lo, p.monthlyApiCalls.hi)
      && IntWithin(t.projectCount, p.projectsPerMonth.lo, p.projectsPerMonth.hi)
      && (p.automationSavings.lo <= p.automationSavings.hi ==>
            Within(t.automationSavings, p.automationSavings.lo, p.automationSavings.hi))
  {
  }

  /**
   * Under the default ranges every trial's churn-scaled subscriber count lies
   * between 0 and 425, the sum of the three tiers' upper bounds.
   */
  lemma DefaultSubscribersBounded(d: Draws, n: nat)
    requires DrawsFit(DEFAULT_PARAMETERS, d, n)
    ensures forall i :: 0 <= i < n ==> 0.0 <= Simulate(DEFAULT_PARAMETERS, d, n).value.totalSubscribers[i] <= 425.0
  {
    var p := DEFAULT_PARAMETERS;
    var b := Integers(p.basicSubscribers, d.basicSubscribers, n);
    var pro := Integers(p.proSubscribers, d.proSubscribers, n);
    var e := Integers(p.enterpriseSubscribers, d.enterpriseSubscribers, n);
    var bp, pp, ep := Uniform(p.basicPrice, d.basicPrice), Uniform(p.proPrice, d.proPrice), Uniform(p.enterprisePrice, d.enterprisePrice);
    var churn := Uniform(p.churnRate, d.churn);
    ChurnBoundsSubscribers(b, pro, e, bp, pp, ep, churn);
  }

  /** Zero-width zero subscriber ranges give a subscription revenue of zero in every trial. */
  lemma ZeroSubscriberScenario(p: Parameters, d: Draws, n: nat)
    requires DrawsFit(p, d, n) && Sampleable(p)
    requires p.basicSubscribers == IntRange(0, 0) && p.proSubscribers == IntRange(0, 0) && p.enterpriseSubscribers == IntRange(0, 0)
    ensures forall i :: 0 <= i < n ==> Simulate(p, d, n).value.subscriptionRevenue[i] == 0.0
  {
    var b := Integers(p.basicSubscribers, d.basicSubscribers, n);
    var pro := Integers(p.proSubscribers, d.proSubscribers, n);
    var e := Integers(p.enterpriseSubscribers, d.enterpriseSubscribers, n);
    ZeroSubscribersZeroRevenue(b, pro, e, Uniform(p.basicPrice, d.basicPrice), Uniform(p.proPrice, d.proPrice),
                               Uniform(p.enterprisePrice, d.enterprisePrice), Uniform(p.churnRate, d.churn));
  }

  /**
   * Zero-width zero cost ranges give a total cost of zero in every trial, and
   * therefore a non-finite ROI in every trial.
   */
  lemma ZeroCostScenario(p: Parameters, d: Draws, n: nat)
    requires DrawsFit(p, d, n) && Sampleable(p)
    requires p.infrastructureMonthly == Range(0.0, 0.0) && p.dataAcquisition == Range(0.0, 0.0)
    requires p.personnelAllocation == Range(0.0, 0.0) && p.marketingMonthly == Range(0.0, 0.0)
    ensures forall i :: 0 <= i < n ==>
      Simulate(p, d, n).value.totalCosts[i] == 0.0 && Simulate(p, d, n).value.roiPercent[i].NonFinite?
  {
    ZeroCostsZeroTotal(Uniform(p.infrastructureMonthly, d.infrastructure),
                       Normal(p.dataAcquisition, 0.0, d.dataAcquisition),
                       Normal(p.personnelAllocation, 0.0, d.personnel),
                       Uniform(p.marketingMonthly, d.marketing),
                       Uniform(p.automationSavings, d.automation));
  }

  // ---------------------------------------------------------------- summarisers

  /** The metrics `generate_statistics` summarises, in order. */
  const KEY_METRICS: seq<string> :=
    ["monthly_value", "adjusted_revenue", "gross_profit", "roi_percent", "hours_saved", "total_subscribers"]

  /** The input streams `sensitivity_analysis` ranks, in order. */
  const SENSITIVITY_FACTORS: seq<string> :=
    ["subscription_revenue", "api_revenue", "project_revenue", "licensing_revenue", "total_costs", "automation_savings"]

  function AsFloats(s: seq<real>): (f: seq<Float>)
    ensures |f| == |s| && forall i :: 0 <= i < |s| ==> f[i] == Finite(s[i])
  {
    seq(|s|, i requires 0 <= i < |s| => Finite(s[i]))
  }

  /** A column of the trial table by its name, as pandas floats. */
  function Column(t: TrialTable, name: string): (c: seq<Float>)
    requires name in KEY_METRICS || name in SENSITIVITY_FACTORS
  {
    match name
    case "monthly_value" => AsFloats(t.monthlyValue)
    case "adjusted_revenue" => AsFloats(t.adjustedRevenue)
    case "gross_profit" => AsFloats(t.grossProfit)
    case "roi_percent" => t.roiPercent
    case "hours_saved" => AsFloats(t.hoursSaved)
    case "total_subscribers" => AsFloats(t.totalSubscribers)
    case "subscription_revenue" => AsFloats(t.subscriptionRevenue)
    case "api_revenue" => AsFloats(t.apiRevenue)
    case "project_revenue" => AsFloats(t.projectRevenue)
    case "licensing_revenue" => AsFloats(t.licensingRevenue)
    case "total_costs" => AsFloats(t.totalCosts)
    case _ => AsFloats(t.automationSavings)
  }

  /** The nine statistics pandas computes for one column. */
  datatype Statistics = Statistics(
    mean: real, median: real, stdDev: real,
    p5: real, p25: real, p75: real, p95: real, min: real, max: real)

  datatype SummaryRow = SummaryRow(metric: string, stats: Statistics)

  /** One row of `sensitivity_analysis`, with pandas' `corr` and `std() / mean()` as parameters. */
  function SensitivityRowFor(t: TrialTable, factor: string,
                             corr: (seq<Float>, seq<Float>) -> real, spread: seq<Float> -> real): (row: SensitivityRow)
    requires factor in SENSITIVITY_FACTORS
    ensures row.factor == Label(factor)
    ensures row.correlation == corr(Column(t, "monthly_value"), Column(t, factor))
    ensures row.importance == ImportanceOf(row.correlation)
    ensures row.impactScore == spread(Column(t, factor)) * Abs(row.correlation)
  {
    var correlation := corr(Column(t, "monthly_value"), Column(t, factor));
    SensitivityRow(Label(factor), correlation, spread(Column(t, factor)) * Abs(correlation), ImportanceOf(correlation))
  }

  /** The unsorted rows of `sensitivity_analysis`, one per input stream in order. */
  function SensitivityRows(t: TrialTable, corr: (seq<Float>, seq<Float>) -> real, spread: seq<Float> -> real)
    : (rows: seq<SensitivityRow>)
    ensures |rows| == |SENSITIVITY_FACTORS|
    ensures forall k :: 0 <= k < |rows| ==> rows[k] == SensitivityRowFor(t, SENSITIVITY_FACTORS[k], corr, spread)
  {
    seq(|SENSITIVITY_FACTORS|, k requires 0 <= k < |SENSITIVITY_FACTORS| =>
      SensitivityRowFor(t, SENSITIVITY_FACTORS[k], corr, spread))
  }

  /** Reordering rows keeps every row's label consistent with its correlation. */
  lemma PermutedRowsKeepLabels(rows: seq<SensitivityRow>, perm: seq<SensitivityRow>)
    requires forall k :: 0 <= k < |rows| ==> rows[k].importance == ImportanceOf(rows[k].correlation)
    requires multiset(perm) == multiset(rows)
    ensures forall k :: 0 <= k < |perm| ==> perm[k].importance == ImportanceOf(perm[k].correlation)
  {
    forall k | 0 <= k < |perm|
      ensures perm[k].importance == ImportanceOf(perm[k].correlation)
    {
      assert perm[k] in multiset(rows);
    }
  }

  /** `BlazeIntelMonteCarlo`: the parameters, the trial count and the last run's table. */
  class MonteCarloEngine {
    const params: Parameters
    const nSimulations: int
    var results: Option<TrialTable>

    /** `__init__`, with the default of 10000 trials. */
    constructor (params: Parameters, nSimulations: int := 10000)
      ensures this.params == params && this.nSimulations == nSimulations
      ensures results == None
    {
      this.params := params;
      this.nSimulations := nSimulations;
      results := None;
    }

    /**
     * `run_simulation`: composes the streams, stores the table in `results`
     * and returns it; a sampler error propagates and leaves `results` as it was.
     */
    method RunSimulation(d: Draws) returns (r: Result<TrialTable>)
      requires nSimulations >= 0 ==> DrawsFit(params, d, nSimulations)
      modifies this
      ensures r == Simulate(params, d, nSimulations)
      ensures results == if r.Ok? then Some(r.value) else old(results)
    {
      var p, n := params, nSimulations;
      if n < 0 || !Sampleable(p) {
        return Err(ValueError);
      }
      var subscription := SubscriptionOf(p, d, n);
      var api := ApiOf(p, d, n);
      var projects := ProjectOf(p, d, n);
      var licensing := LicensingOf(p, d, n);
      var gross := GrossRevenue(subscription, api, projects, licensing, n);
      var adjusted := AdjustedOf(p, d, n, gross);
      var costs := SimulateCosts(Uniform(p.infrastructureMonthly, d.infrastructure),
                                 Normal(p.dataAcquisition, 0.0, d.dataAcquisition),
                                 Normal(p.personnelAllocation, 0.0, d.personnel),
                                 Uniform(p.marketingMonthly, d.marketing),
                                 Uniform(p.automationSavings, d.automation));
      var table := Aggregate(subscription, api, projects, licensing, costs, gross, adjusted, n);
      results := Some(table);
      r := Ok(table);
    }

    /**
     * `generate_statistics`: raises while no run has stored a table; otherwise
     * one row per key metric, in order, labelled and summarised by `describe`.
     */
    method GenerateStatistics(describe: seq<Float> -> Statistics) returns (r: Result<seq<SummaryRow>>)
      ensures results.None? ==> r == Err(ValueError)
      ensures results.Some? ==> r.Ok? && |r.value| == |KEY_METRICS|
      ensures results.Some? ==> forall k :: 0 <= k < |KEY_METRICS| ==>
        r.value[k] == SummaryRow(Label(KEY_METRICS[k]), describe(Column(results.value, KEY_METRICS[k])))
    {
      if results == None {
        return Err(ValueError);
      }
      var t := results.value;
      var stats: seq<SummaryRow> := [];
      var k := 0;
      while k < |KEY_METRICS|
        invariant 0 <= k <= |KEY_METRICS|
        invariant |stats| == k
        invariant forall j :: 0 <= j < k ==> stats[j] == SummaryRow(Label(KEY_METRICS[j]), describe(Column(t, KEY_METRICS[j])))
      {
        var metric := KEY_METRICS[k];
        stats := stats + [SummaryRow(Label(metric), describe(Column(t, metric)))];
        k := k + 1;
      }
      r := Ok(stats);
    }

    /**
     * `sensitivity_analysis`: raises while no run has stored a table;
     * otherwise six rows, one per input stream, sorted by descending impact
     * score, each labelled by the strength of its correlation.
     */
    method SensitivityAnalysis(corr: (seq<Float>, seq<Float>) -> real, spread: seq<Float> -> real)
      returns (r: Result<seq<SensitivityRow>>)
      ensures results.None? ==> r == Err(ValueError)
      ensures results.Some? ==> r.Ok? && |r.value| == |SENSITIVITY_FACTORS| && SortedByImpact(r.value)
      ensures results.Some? ==> multiset(r.value) == multiset(SensitivityRows(results.value, corr, spread))
      ensures results.Some? ==> forall k :: 0 <= k < |r.value| ==>
        r.value[k].importance == ImportanceOf(r.value[k].correlation)
    {
      if results == None {
        return Err(ValueError);
      }
      var t := results.value;
      var rows: seq<SensitivityRow> := [];
      var k := 0;
      while k < |SENSITIVITY_FACTORS|
        invariant 0 <= k <= |SENSITIVITY_FACTORS|
        invariant |rows| == k
        invariant forall j :: 0 <= j < k ==> rows[j] == SensitivityRowFor(t, SENSITIVITY_FACTORS[j], corr, spread)
      {
        rows := rows + [SensitivityRowFor(t, SENSITIVITY_FACTORS[k], corr, spread)];
        k := k + 1;
      }
      assert rows == SensitivityRows(t, corr, spread);
      var sorted := SortByImpact(rows);
      PermutedRowsKeepLabels(rows, sorted);
      r := Ok(sorted);
    }
  }
}
