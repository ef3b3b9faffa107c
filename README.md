# Hybrid failure-risk scorer, modelled in Dafny

This project models the scoring core of a cloud-node failure predictor. Six live readings come in: CPU %, memory %, disk I/O, network latency, error rate % and queue length.

- A **rule engine** (`smart_failure_risk`) gives each reading a bracket of points and caps the sum at 100.
- A **base probability** (`predict_failure`) is the larger of the rule score and the learned model's probability. That probability is 0 when no model file was loaded.
- A **hybrid layer** in the web route adds four crisis bonuses, clamps the result to [0, 100], rounds it to two decimals, and maps it to a tier (LOW, MEDIUM, HIGH) with a fixed advisory.
- A **history** list keeps the last ten scoring events. Each call appends one event and drops the oldest once the list grows past ten.

Files and modules:

- `rounding.dfy` (`Rounding`): Python's `round(x, 2)` on an exact real value. It rounds half to even on `x * 100`. The module proves that rounding is monotone, leaves two-decimal values alone, and keeps values inside whole-number bounds.
- `model_utils.dfy` (`ModelUtils`): the readings, the six brackets, the rule score as a specification function, `SmartFailureRisk` as the imperative accumulator proved equal to it, the learned estimate and `PredictFailure`.
- `hybrid.dfy` (`Hybrid`): tiers, advisories, crisis bonuses, the hybrid risk on a given base (`HybridRisk`), the whole per-request risk (`FinalRisk`), and the imperative `Score` method. It also holds the monotonicity, degraded-mode and scenario lemmas.
- `ledger.dfy` (`Ledger`): the history event, one `add_to_history` step as a function, the `History` class with its `Append` method, and the fold lemma. The lemma says that any run of appends leaves exactly the newest ten events, in order.
- `route.dfy` (`Route`): the POST branch once the readings are parsed. It computes the base, scores it and appends the event.

Metrics are `real`. In the computation this model keeps, a reading only feeds `>` comparisons against constants and, for five of them, the history row; the bonuses are added to the base. All six readings also go to the learned model, which is outside the model (see below). The learned model is an input: `Estimate` is either `NoModel` or `Learned(p)`, where `p` in [0, 1] is what the classifier returns for the failure class.

## Model

| member | source | states |
|---|---|---|
| `Rounding.Hundredths` | model_utils.py:61 | the number of hundredths `round(x, 2)` keeps lies within half a unit of `x * 100`, and an exact tie goes to the even neighbour |
| `Rounding.Round2` | model_utils.py:61 | `round(x, 2)` lands within 0.005 of x, and its result has at most two decimals |
| `Rounding.Round2Monotone` | app.py:59 | rounding to two decimals never reverses the order of two values |
| `Rounding.Round2OfCents` | model_utils.py:69 | rounding a value that already has two decimals returns it unchanged |
| `Rounding.Round2Within` | model_utils.py:60-61 | rounding keeps a value inside any range whose ends are whole numbers, in particular [0, 100] |
| `Rounding.Round2AtLeastCents` | app.py:58-59 | if a two-decimal value c is at most x, then rounding x never falls below c |
| `ModelUtils.Points` | model_utils.py:15-48 | a metric contributes exactly one of 0, the mid points or the high points. It gets the high points exactly when above the high threshold, never high plus mid |
| `ModelUtils.RawRuleScore` | model_utils.py:12-48 | the uncapped sum of the six brackets is at most 115 |
| `ModelUtils.PointsStepsOfFive` | model_utils.py:16-48 | a bracket paying in steps of five contributes a multiple of five |
| `ModelUtils.RawRuleScoreStepsOfFive` | model_utils.py:16-48 | the uncapped sum is a multiple of 5, since every contribution is 10, 15, 20 or 25 |
| `ModelUtils.RuleScore` | model_utils.py:50-52 | the rule score is at most 100. It equals the raw sum, or it is 100 when the raw sum exceeded 100 |
| `ModelUtils.SmartFailureRisk` | model_utils.py:11-52 | the six `score +=` brackets followed by `min(score, 100)` compute exactly `RuleScore`, and the result lies in [0, 100] |
| `ModelUtils.RuleScoreZeroIffCalm` | model_utils.py:11-52 | the rule score is 0 if and only if cpu ≤ 70, mem ≤ 70, disk ≤ 90, latency ≤ 150, error ≤ 2 and queue ≤ 50 |
| `ModelUtils.PointsMonotone` | model_utils.py:15-18 | a higher reading never earns a bracket fewer points |
| `ModelUtils.RuleScoreMonotone` | model_utils.py:14-52 | raising any readings never lowers the rule score |
| `ModelUtils.RawRuleScoreReaches115` | model_utils.py:50-51 | the raw sum does reach 115, and the cap brings it to 100 |
| `ModelUtils.LearnedPercent` | model_utils.py:58-61 | `ml_prob` is 0 without a model. Otherwise it is the model's probability times 100, within 0.005, with two decimals. It always lies in [0, 100] |
| `ModelUtils.PredictFailure` | model_utils.py:54-69 | the base is at least the rule score and at least the learned percentage, and it equals one of them. It lies in [0, 100] and has two decimals |
| `ModelUtils.PredictFailureWithoutModel` | model_utils.py:58-69 | with no model loaded, the base equals the rule score exactly |
| `ModelUtils.PredictFailureMonotone` | model_utils.py:64-67 | for a fixed learned estimate, raising readings never lowers the base |
| `Hybrid.TierOf` | app.py:61-76 | HIGH if and only if risk ≥ 80. MEDIUM if and only if 50 ≤ risk < 80. LOW if and only if risk < 50 |
| `Hybrid.TierName` | app.py:63-75 | the level string is "HIGH", "MEDIUM" or "LOW" exactly for the HIGH, MEDIUM and LOW tier |
| `Hybrid.Recommendation` | app.py:62-76 | the advisory is the auto-scale text exactly for HIGH, the monitor-closely text exactly for MEDIUM and the system-stable text exactly for LOW, each string as the source spells it |
| `Hybrid.RecommendationDistinct` | app.py:62-76 | two tiers get the same advisory if and only if they are the same tier, so the advisory depends on the tier alone and determines it |
| `Hybrid.CrisisBonus` | app.py:46-56 | the four bonuses sum to at most 70. They are 0 exactly when no trigger fires: cpu ≤ 85, mem ≤ 90, latency ≤ 300, error ≤ 5, queue ≤ 100 and disk ≤ 140 |
| `Hybrid.Clamp` | app.py:58 | `max(0, min(risk, 100))` lies in [0, 100], keeps in-range values, and maps overflow to 100 and underflow to 0 |
| `Hybrid.HybridRisk` | app.py:44-59 | the risk lies in [0, 100] and has two decimals. When the base is ≤ 100 the risk is at least the base, up to rounding, and fully at least the base when the base has two decimals |
| `Hybrid.FinalRisk` | app.py:41-59 | the risk of a request lies in [0, 100] and is never below `predict_failure`'s base |
| `Hybrid.Score` | app.py:44-76 | the `risk +=` block, clamp and round compute `HybridRisk`. The level and advisory are the tier of that result and its advisory |
| `Hybrid.HybridRiskOfCents` | app.py:58-59 | on a two-decimal base, the final `round` changes nothing: the risk is the clamped sum of base and bonuses |
| `Hybrid.DegradedMode` | app.py:44-58 | with no model, the risk is exactly the clamped sum of the rule score and the crisis bonuses |
| `Hybrid.CrisisBonusMonotone` | app.py:46-56 | raising readings never lowers the crisis bonus |
| `Hybrid.HybridRiskMonotone` | app.py:44-59 | a higher base with readings that are no better never gives a lower risk |
| `Hybrid.FinalRiskMonotone` | app.py:41-59 | for a fixed learned estimate, including no model, raising any readings never lowers the final risk |
| `Hybrid.ScenarioCalm` | app.py:44-76 | cpu 30, mem 40, disk 20, latency 50, error 0.5, queue 5 with no model gives risk 0, LOW |
| `Hybrid.ScenarioHotCpuAndMemory` | app.py:46-47 | cpu 90, mem 95, disk 50, latency 100, error 1, queue 10 with no model gives rule score 40, then 65 after the bonus, MEDIUM |
| `Hybrid.ScenarioEverythingInCrisis` | app.py:46-58 | cpu 95, mem 96, disk 150, latency 400, error 8, queue 150 gives a 70-point bonus and risk 100, HIGH, whatever the model says |
| `Ledger.MakeEvent` | app.py:10-19 | the history row carries the time, the risk rounded to two decimals, the level, and cpu, memory, latency, error and queue. Disk is not recorded |
| `Ledger.Step` | app.py:10-21 | one call keeps a history of at most ten rows (`WithinCapacity`) within that bound and puts the new event last. Below capacity it appends. At or above capacity it drops index 0 and nothing else |
| `Ledger.StepIsNewest` | app.py:10-21 | from a history within capacity, one call leaves the newest ten of the history followed by the new event |
| `Ledger.ReplayKeepsNewest` | app.py:9-21 | from any history within capacity, a run of calls leaves exactly the newest ten of the old history followed by the new events, in their original order |
| `Ledger.ReplayFromEmpty` | app.py:7-21 | starting from the empty list, after N calls the history is the last min(N, 10) events in order |
| `Ledger.ElevenCallsDropTheFirst` | app.py:20-21 | eleven calls from empty keep events 2 to 11 and lose event 1 |
| `Ledger.History.constructor` | app.py:7 | the history starts empty |
| `Ledger.History.Append` | app.py:9-21 | the list becomes `Step` of the old list and the new row, with the new row last. The capacity bound ≤ 10 is preserved. Exactly the head is dropped when the list grew past ten |
| `Route.Submit` | app.py:38-78 | one request reports `FinalRisk`, its tier and advisory, and appends a row whose risk equals the reported risk |

## Left out

- Flask request handling, `float(request.form[...])` parsing, `render_template` and `app.run` (app.py:1-5, 24-36, 80-90) are web I/O. A form field that is missing or not numeric makes the route raise before anything is scored or recorded. This model starts from six parsed readings.
- `datetime.now().strftime("%H:%M:%S")` (app.py:11) reads the clock. The time is a string the caller passes in.
- `joblib.load` and `model.predict_proba` (model_utils.py:7-9, 60) are foreign machine-learning calls. The model is the `Estimate` parameter. A classifier that raises during inference is not modelled: the source does not catch that error and the request fails. Falling back to rule-only scoring for that request is a hardening the code does not have.
- offline_training.py (random data, model fitting, file output) is not part of this model.
- Floating point: readings and sums are exact reals. The `risk += 25` additions are therefore exact, and `round` works on exact values. Python rounds the binary value of a float, so a decimal like 2.675 that prints as a tie is not a tie there. The model rounds half to even on the exact real.
- NaN and infinite readings: `float(request.form[...])` (app.py:31-36) accepts "nan", "inf" and "-inf". Every `>` on a NaN is false, so a NaN reading earns no bracket and triggers no bonus, and the row stores NaN. An infinite reading simply exceeds or misses every threshold. Dafny's `real` has neither value, so these inputs are not modelled.
- The level is the `Tier` datatype rather than the strings "LOW", "MEDIUM", "HIGH". `Hybrid.TierName` gives the strings.
- Concurrent requests appending to the global `HISTORY` are not modelled. A single owner calls `Append`.
- Readings are not required to be non-negative, because the code does not check them. Negative readings simply score nothing.
