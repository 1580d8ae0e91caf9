# Blaze Intelligence Monte Carlo engine and rig-calibration decay, in Dafny

This project models two parts of the Blaze Sports Intel code base and proves
properties of them.

- **The Monte Carlo revenue engine** (`BlazeIntelMonteCarlo` in
  `monte_carlo.py`). It samples 26 parameter ranges once per trial. From those
  samples it derives four revenue streams (subscriptions, API, custom projects,
  data licensing) and four costs (three of them reduced by an automation saving). It applies
  the seasonal, growth, efficiency and sport-impact multipliers, and builds the
  per-trial results table (profit, margin, ROI, hours saved). While a table
  exists, the engine summarises it: `generate_statistics` yields one row per
  key metric, and `sensitivity_analysis` yields one row per input stream,
  labelled and ordered by descending impact score.
- **Calibration confidence decay** for the pitcher-readiness camera rig
  (`CalibrationConfidenceDecay` and `CalibrationManager` in
  `src/services/pitcherReadiness/calibration-decay.py`). Confidence decays
  exponentially after a calibration. Vibration, wind, temperature swings and
  humidity swings speed the decay up, and confidence is floored at a minimum.
  Confidence bands map to an action (NONE, REBASELINE, FALLBACK, ALERT), and
  three ordered rules decide whether to recalibrate. The manager records
  calibration events and reports the current status.

Files:

- `common.dfy`: `Option`, `Result`, the `ValueError` error, and `Float`, which
  is a real or a non-finite IEEE value (used for divisions that can hit zero).
- `sampling.dfy`: the three samplers. The random generator is replaced by the
  raw draws numpy would return: unit draws for `uniform`, standard-normal
  draws for `normal`, and integers in `[lo, hi + 1)` for `randint`.
- `streams.dfy`: the four revenue streams, the costs (including the in-place
  automation scaling on arrays), and the market adjustment.
- `summaries.dfy`: the display labels (`replace('_', ' ').title()`), the
  importance label, and the ordering of sensitivity rows.
- `engine.dfy`: the parameters, one run composed into the trial table, and
  the engine class with its `results` state and its two summarisers.
- `calibration.dfy`: the decay model, the environmental multiplier, the
  action bands, the recalibration rules, and the manager class.

## Model

| member | source | states |
|---|---|---|
| Common.Divide | monte_carlo.py:255-256 | float division: non-finite exactly when the divisor is zero; otherwise the quotient times the divisor gives back the dividend |
| Sampling.Clip | monte_carlo.py:96 | `np.clip` lands in `[lo, hi]` and leaves values already in range unchanged |
| Sampling.ClipMonotone | monte_carlo.py:96 | clipping preserves order |
| Sampling.SampleUniform | monte_carlo.py:80-82 | one sample per unit draw; for `lo <= hi` every sample lies in `[lo, hi]` |
| Sampling.SampleInteger | monte_carlo.py:99-101 | raises ValueError exactly when `hi < lo`; otherwise every sample lies in the inclusive `[lo, hi]`, because the exclusive bound is `hi + 1` |
| Sampling.NormalStd | monte_carlo.py:87-88 | the spread is a quarter of the width: zero exactly for a one-point range, positive exactly for `lo < hi` |
| Sampling.SkewNeverDecreases | monte_carlo.py:91-93 | with `std > 0` and `skew >= 0`, the skew transform never lowers a sample |
| Sampling.NormalBoundedAsWritten | monte_carlo.py:84-97 | the bounded normal as written: ValueError exactly when `hi < lo`; one value per draw; every sample NaN for a one-point range with a non-zero skew, and otherwise every sample finite and in `[lo, hi]` |
| Sampling.DrawAsWritten | monte_carlo.py:87-96 | one sample as written is NaN exactly for a one-point range with a non-zero skew, and otherwise lies in `[lo, hi]`; with a non-zero skew on a proper range it is the clamped skewed draw |
| Sampling.DegenerateSkewIsNaN | monte_carlo.py:87-93 | for the range (5, 5) with skew 0.2, the code as written yields NaN; the guarded sampler yields 5 |
| Sampling.SampleNormalBounded | monte_carlo.py:84-97 | ValueError exactly when `hi < lo`; otherwise every sample lies in `[lo, hi]` whatever the pre-clamp draw; with `skew == 0` each sample is the clamped normal draw, and with a non-zero skew on a proper range it is the clamped skewed draw |
| Sampling.NormalBoundedAgreesWhenSpread | monte_carlo.py:84-97 | whenever the skew branch cannot divide by zero, the guarded sampler and the code as written give the same samples |
| Sampling.PositiveSkewRaisesSamples | monte_carlo.py:91-96 | a positive skew never gives a sample below the unskewed sample for the same draw |
| Streams.SimulateSubscriptionRevenue | monte_carlo.py:103-131 | one value per trial in every column; each tier's revenue is subscribers × price × (1 − churn); the total is the sum of the tiers; total subscribers is the subscriber sum × (1 − churn) |
| Streams.SubscriptionTotalIsRetainedRevenue | monte_carlo.py:121-129 | the subscription total is the price-weighted subscriber count scaled by `1 - churn` |
| Streams.ChurnBoundsSubscribers | monte_carlo.py:117-130 | for churn in `[0, 1]`, retained subscribers lie between 0 and the unscaled subscriber sum |
| Streams.ZeroSubscribersZeroRevenue | monte_carlo.py:121-130 | zero subscribers in every tier give zero revenue and zero subscribers |
| Streams.SimulateApiRevenue | monte_carlo.py:133-148 | per trial, usage = calls × per-call rate and API total = base + usage; base and calls are passed through unchanged |
| Streams.ApiRevenueBounds | monte_carlo.py:136-141 | usage is calls × rate, and the API total stays within the bounds its three ranges imply |
| Streams.SimulateProjectRevenue | monte_carlo.py:150-162 | count and value are passed through, and the total is count × value in every trial |
| Streams.ProjectRevenueBounds | monte_carlo.py:153-156 | project revenue lies within the product of the count range and the value range |
| Streams.SimulateLicensingRevenue | monte_carlo.py:164-177 | 12 × monthly licensing = deals × deal value per trial |
| Streams.LicensingRevenueBounds | monte_carlo.py:167-171 | monthly licensing lies within a twelfth of the product of the two ranges |
| Streams.Scaled | monte_carlo.py:191-193 | one value per trial: the draw × (1 − saving × share) |
| Streams.ScaledNotAbove | monte_carlo.py:191-193 | for an automation saving in `[0, 1]`, a scaled non-negative cost lies between 0 and its unscaled draw |
| Streams.CostsOf | monte_carlo.py:179-204 | infrastructure, data and personnel are `Scaled` by the saving at shares 0.5, 0.3 and 0.2; marketing and the saving are passed through; the total is the sum of the four scaled costs |
| Streams.AutomationNeverRaisesCosts | monte_carlo.py:188-195 | the automation saving never raises any cost category or the total |
| Streams.ZeroCostsZeroTotal | monte_carlo.py:182-195 | zero cost draws give a zero total whatever the saving |
| Streams.ScaleInPlace | monte_carlo.py:191-193 | the in-place `*=` leaves the array equal to the element-wise scaling of its old contents |
| Streams.SimulateCosts | monte_carlo.py:179-204 | the imperative cost simulation (arrays scaled in place) yields exactly `CostsOf` of its draws |
| Streams.SportsFactor | monte_carlo.py:214-219 | the composite is 0.35 × baseball + 0.30 × football + 0.25 × basketball + 0.10 × track; the weights sum to 1, so it lies between the smallest and the largest sport impact |
| Streams.ApplyMarketFactors | monte_carlo.py:206-223 | in every trial, adjusted revenue = base × seasonality × growth × efficiency × the weighted sport sum of that trial |
| Streams.MarketAdjustmentUsesComposite | monte_carlo.py:214-221 | in every trial, adjusted revenue = base × seasonality × growth × efficiency × the trial's entry of the sport composite column |
| Streams.MultiplierBounds | monte_carlo.py:209-221 | for factors inside non-negative ranges, one trial's multiplier lies between the multiplier at the lower ends and the multiplier at the upper ends |
| Streams.MarketAdjustmentAt | monte_carlo.py:206-223 | for a non-negative base, the adjusted revenue of trial `i` lies between the base times those two multipliers |
| Streams.MarketAdjustmentBounds | monte_carlo.py:206-223 | for non-negative base revenue and factor populations sampled within non-negative ranges, every adjusted revenue lies between the base times the multiplier at the lower ends and the base times the multiplier at the upper ends (the sport composite at the weighted ends) |
| Engine.GrossRevenue | monte_carlo.py:240-245 | total revenue per trial is the sum of the four stream totals |
| Engine.Percent | monte_carlo.py:256 | ROI is the ratio × 100; a non-finite ratio stays non-finite |
| Engine.Aggregate | monte_carlo.py:254-292 | every column has one value per trial; the stream totals, the total and the four per-category cost columns, the savings, subscribers, calls and project counts are the computed columns; profit = adjusted revenue − total cost; `monthly_value` is the profit; 55 × hours saved = profit; margin and ROI are non-finite exactly when revenue or cost is zero, and otherwise are the profit ratios |
| Engine.Simulate | monte_carlo.py:225-293 | a run raises ValueError exactly when the trial count is negative or some integer or bounded-normal range is inverted; otherwise every column has `n_simulations` rows |
| Engine.DefaultParametersSampleable | monte_carlo.py:23-69 | the default ranges never make a sampler raise |
| Engine.RunComposesStreams | monte_carlo.py:234-259 | per trial of a run: gross revenue is the stream sum, adjusted revenue is the market adjustment of it, profit is adjusted revenue minus costs, monthly value is the profit, hours saved is profit / 55, total cost is the sum of the four costs |
| Engine.RunSamplesInRange | monte_carlo.py:287-289 | API calls, project counts and automation savings of a run lie in their parameter ranges |
| Engine.DefaultSubscribersBounded | monte_carlo.py:28-59 | under the default ranges, retained subscribers lie in `[0, 425]` in every trial |
| Engine.ZeroSubscriberScenario | monte_carlo.py:121-123 | zero-width zero subscriber ranges give zero subscription revenue in every trial |
| Engine.ZeroCostScenario | monte_carlo.py:254-256 | zero-width zero cost ranges give zero total cost and a non-finite ROI in every trial |
| Engine.SensitivityRowFor | monte_carlo.py:432-441 | a row's label is the factor's display label; its correlation is `corr(monthly_value, factor)`; its importance follows that correlation; its impact is `std/mean × abs(correlation)` |
| Engine.SensitivityRows | monte_carlo.py:426-441 | one row per input stream, in the order of the factor list |
| Engine.PermutedRowsKeepLabels | monte_carlo.py:443 | reordering rows keeps each importance label consistent with its correlation |
| Engine.MonteCarloEngine.constructor | monte_carlo.py:75-78 | a new engine keeps its parameters and trial count (10000 by default), and has no results |
| Engine.MonteCarloEngine.RunSimulation | monte_carlo.py:225-293 | returns `Simulate` of the parameters and draws; a successful run stores its table in `results`, and a failed run leaves `results` unchanged |
| Engine.MonteCarloEngine.GenerateStatistics | monte_carlo.py:295-322 | ValueError while no table exists; otherwise six rows in key-metric order, each the metric's label with the statistics of its column |
| Engine.MonteCarloEngine.SensitivityAnalysis | monte_carlo.py:419-443 | ValueError while no table exists; otherwise six rows, sorted by descending impact, a permutation of the per-factor rows, each labelled consistently with its correlation |
| Summaries.TitleFrom | monte_carlo.py:309 | `str.title()`: same length and letters; a letter is upper-cased after a non-letter and lower-cased after a letter |
| Summaries.Label | monte_carlo.py:437 | same length; a space exactly where the name has an underscore or space; every other character is upper-cased when it follows a non-letter (or starts the name) and lower-cased when it follows a letter |
| Summaries.ImportanceOf | monte_carlo.py:440 | High iff abs(corr) > 0.3; Medium iff 0.1 < abs(corr) ≤ 0.3; Low iff abs(corr) ≤ 0.1 |
| Summaries.ImportanceMonotone | monte_carlo.py:440 | a stronger correlation never gets a weaker label |
| Summaries.InsertByImpact | monte_carlo.py:443 | inserting into a sorted list keeps it sorted by descending impact and adds exactly the new row |
| Summaries.SortByImpact | monte_carlo.py:443 | the result is a permutation of the rows, sorted by descending impact score |
| CalibrationDecay.NewDecayModel | src/services/pitcherReadiness/calibration-decay.py:24-39 | keeps the three settings; the decay rate × half-life is ln 2 |
| CalibrationDecay.VibrationFactor | src/services/pitcherReadiness/calibration-decay.py:101-104 | at least 1, and above 1 exactly when vibration is strictly above 0.3 |
| CalibrationDecay.WindFactor | src/services/pitcherReadiness/calibration-decay.py:107-111 | between 1 and the wind weight 1.5, and above 1 exactly when wind is strictly above 15 mph |
| CalibrationDecay.TemperatureFactor | src/services/pitcherReadiness/calibration-decay.py:114-118 | between 1 and 1.3, and above 1 exactly when the absolute temperature change exceeds 5 |
| CalibrationDecay.HumidityFactor | src/services/pitcherReadiness/calibration-decay.py:121-125 | between 1 and 1.2, and above 1 exactly when the absolute humidity change exceeds 10 |
| CalibrationDecay.MultiplierAtLeastOne | src/services/pitcherReadiness/calibration-decay.py:98-125 | the combined multiplier is at least 1 |
| CalibrationDecay.AdjustedRateNotBelowBase | src/services/pitcherReadiness/calibration-decay.py:95-127 | for a non-negative base rate, the adjusted rate is at least the base rate |
| CalibrationDecay.VibrationUncapped | src/services/pitcherReadiness/calibration-decay.py:101-104 | the vibration factor has no cap: it exceeds any bound for a large enough index |
| CalibrationDecay.ApplyVibration | src/services/pitcherReadiness/calibration-decay.py:100-104 | the vibration step multiplies the running multiplier by the vibration factor |
| CalibrationDecay.ApplyWind | src/services/pitcherReadiness/calibration-decay.py:106-111 | the wind step multiplies the running multiplier by the wind factor |
| CalibrationDecay.ApplyTemperature | src/services/pitcherReadiness/calibration-decay.py:113-118 | the temperature step multiplies the running multiplier by the temperature factor |
| CalibrationDecay.ApplyHumidity | src/services/pitcherReadiness/calibration-decay.py:120-125 | the humidity step multiplies the running multiplier by the humidity factor |
| CalibrationDecay.AdjustDecayRate | src/services/pitcherReadiness/calibration-decay.py:82-127 | the adjusted rate is the base rate times the product of the four factors; with no factors it is the base rate unchanged |
| CalibrationDecay.Confidence | src/services/pitcherReadiness/calibration-decay.py:64-74 | confidence is never below the floor or below the decayed value, and it equals one of the two |
| CalibrationDecay.DecayedNotAboveInitial | src/services/pitcherReadiness/calibration-decay.py:71 | with `exp(x) <= 1` for `x <= 0`, decay at a non-negative rate over non-negative time never exceeds the initial confidence |
| CalibrationDecay.ConfidenceNotAboveStart | src/services/pitcherReadiness/calibration-decay.py:65-74 | floored confidence never exceeds the larger of the initial confidence and the floor |
| CalibrationDecay.DecayedNonIncreasing | src/services/pitcherReadiness/calibration-decay.py:71 | with a monotone `exp`, decay never increases over time |
| CalibrationDecay.ConfidenceNonIncreasing | src/services/pitcherReadiness/calibration-decay.py:65-74 | with a monotone `exp`, confidence under a fixed environment never increases over time |
| CalibrationDecay.CalculateConfidence | src/services/pitcherReadiness/calibration-decay.py:49-80 | the imperative computation equals `Confidence` at the elapsed minutes, and is never below the floor |
| CalibrationDecay.GetAction | src/services/pitcherReadiness/calibration-decay.py:155-172 | four bands, each an if-and-only-if: ≥ 0.8 NONE, [0.7, 0.8) REBASELINE, [0.6, 0.7) FALLBACK, < 0.6 ALERT |
| CalibrationDecay.ActionSeverityMonotone | src/services/pitcherReadiness/calibration-decay.py:165-172 | higher confidence never asks for a more severe action |
| CalibrationDecay.RecommendRecalibration | src/services/pitcherReadiness/calibration-decay.py:129-153 | the first rule that fires gives the reason, each reason given by an if-and-only-if; "acceptable" (and no recalibration) exactly when no rule fires |
| CalibrationDecay.RecommendationFollowsConfidence | src/services/pitcherReadiness/calibration-decay.py:144-153 | below 0.6 recalibration is always recommended and from 0.8 up never, whatever the QA score and late fraction; so the recommendation agrees with ALERT and NONE |
| CalibrationDecay.EnvFactorsFrom | src/services/pitcherReadiness/calibration-decay.py:218-232 | no factors without a snapshot; vibration and wind come from the snapshot with default 0; temperature and humidity deltas are present exactly when a previous snapshot exists, computed with defaults 70 and 50 |
| CalibrationDecay.StatusOf | src/services/pitcherReadiness/calibration-decay.py:202-261 | before any calibration, the fixed status (0.5, ALERT, should recalibrate); afterwards the `Confidence` at the elapsed minutes under the derived factors (so at or above the floor), the action of that confidence, the flag and reason the rules give with the snapshot's QA score and late fraction (defaults 0.9 and 0.05), and the elapsed minutes and factors |
| CalibrationDecay.NoCalibrationStatusAgreesWithRules | src/services/pitcherReadiness/calibration-decay.py:208-214 | the hard-coded no-calibration status is what the action bands and the rules give for confidence 0.5 |
| CalibrationDecay.CalibrationManager.constructor | src/services/pitcherReadiness/calibration-decay.py:180-184 | the default decay model, an empty history, no calibration timestamp, and an empty snapshot |
| CalibrationDecay.CalibrationManager.UpdateCalibration | src/services/pitcherReadiness/calibration-decay.py:186-200 | appends exactly one event stamped `now` (confidence 0.95 by default) and sets the last calibration time to `now` |
| CalibrationDecay.CalibrationManager.GetCurrentConfidence | src/services/pitcherReadiness/calibration-decay.py:202-261 | returns `StatusOf` the manager's state; a non-empty snapshot replaces the stored one only once a calibration exists; otherwise the stored snapshot is unchanged |

## Left out

- Random number generation and the global seed (`np.random.seed(42)`, the order of generator calls): every sampler takes its raw draws as input.
- Statistics computed by pandas (`mean`, `median`, `std`, `quantile`, `min`, `max`, `corr`, `std() / mean()`) are function parameters of the summarisers. Their floating-point values, and the NaN correlation of a constant column, are not modelled.
- Engine.MonteCarloEngine.SensitivityAnalysis: pandas `sort_values` uses quicksort, which does not promise an order for equal impact scores. The model sorts stably and proves only what pandas promises: the result is sorted, and it is a permutation of the rows.
- Plotting (`plot_results`), report and CSV writing (`generate_report`), console output and the command-line entry point are I/O and are not modelled.
- Floating-point rounding and overflow are not modelled: values are mathematical reals. Division by zero in the margin and ROI columns is modelled as a non-finite value, but the distinction between infinity and NaN is not.
- The code validates no range and excludes no non-finite trial. The simulation run raises only numpy's ValueError for an inverted integer or normal range (or a negative trial count), and every trial goes to pandas. The model does the same.
- Engine.Simulate: the run draws every bounded-normal factor through the corrected sampler `Sampling.SampleNormalBounded`. For a one-point `project_value` range the code as written gives NaN project values, and the NaN spreads to project revenue, gross and adjusted revenue, profit, margin, ROI, monthly value and hours saved. The run model gives finite values there instead.
- Summaries.Label: `str.title()` is modelled for ASCII letters only; Unicode casing is not modelled.
- CalibrationDecay.NewDecayModel: requires a non-zero half-life, because the code's division by zero there (a numpy infinity or NaN rate) is not modelled.
- `np.exp` is a function parameter. The lemmas about decay assume what the real exponential satisfies (at most 1 on non-positive arguments, monotone), stated as preconditions.
- CalibrationDecay.CalibrationManager.GetCurrentConfidence: `round(confidence, 3)` in the reported status is not modelled; the status carries the unrounded confidence. Logging is not modelled.
- CalibrationDecay.CalibrationManager.GetCurrentConfidence: the code stores the caller's snapshot dictionary by reference, so a later change the caller makes to that dictionary also changes the manager's stored snapshot. The model stores a map value, so this aliasing is not captured.
- Timestamps are real numbers of seconds, and the clock (`datetime.now()`) is the parameter `now`. The reason strings are the `Reason` datatype carrying the formatted values, not the formatted text.
- Environment values are numbers. A missing or `None` factor dictionary is the empty map, which behaves the same in the code.
- The rest of the repository (the other services, the test and population scripts) is not part of this model.

## Findings

| source | as written | input that shows it | evidently intended | confidence | as-written member | corrected member |
|---|---|---|---|---|---|---|
| monte_carlo.py:87-93 | the skew branch divides by `std = (high - low) / 4`, which is zero for a one-point range, so `0 / 0` turns every sample into NaN (the warning is silenced) | `_sample_normal_bounded((5, 5), skew=0.2)`: every sample is NaN instead of 5 | a one-point range yields that point, as it does with `skew == 0` | not executed | Sampling.NormalBoundedAsWritten (shown by Sampling.DegenerateSkewIsNaN) | Sampling.SampleNormalBounded |
