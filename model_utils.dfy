/**
 * The rule engine `smart_failure_risk` and the base probability
 * `predict_failure` of model_utils.py.
 */
module ModelUtils {
  import opened Rounding

  /** The six readings of one request, in the order the source lists them. */
  datatype Metrics = Metrics(
    cpu: real, memory: real, disk: real, latency: real, errorRate: real, queue: real)

  /** One metric's two breakpoints: above `high` it scores `highPoints`, else above `mid` `midPoints`. */
  datatype Bracket = Bracket(high: real, highPoints: nat, mid: real, midPoints: nat)

  const CpuBracket := Bracket(85.0, 20, 70.0, 10)
  const MemoryBracket := Bracket(85.0, 20, 70.0, 10)
  const DiskBracket := Bracket(120.0, 15, 90.0, 10)
  const LatencyBracket := Bracket(300.0, 20, 150.0, 10)
  const ErrorBracket := Bracket(5.0, 25, 2.0, 15)
  const QueueBracket := Bracket(100.0, 15, 50.0, 10)

  /** The rule score's ceiling (model_utils.py:51). */
  const RuleCap := 100

  /** The high breakpoint lies above the mid one and pays more; the mid one pays something. */
  predicate WellFormed(b: Bracket) {
    b.mid < b.high && 0 < b.midPoints < b.highPoints
  }

  /** Every bracket the rule engine uses is well formed and pays in steps of five. */
  predicate InSteps(b: Bracket) {
    WellFormed(b) && b.midPoints % 5 == 0 && b.highPoints % 5 == 0
  }

  /** What one metric contributes: exactly one of nothing, the mid points or the high points. */
  function Points(v: real, b: Bracket): (p: nat)
    requires WellFormed(b)
    ensures p == 0 <==> v <= b.mid
    ensures p == b.midPoints <==> b.mid < v <= b.high
    ensures p == b.highPoints <==> b.high < v
    ensures p <= b.highPoints
  {
    if v > b.high then b.highPoints
    else if v > b.mid then b.midPoints
    else 0
  }

  /** The sum of the six contributions before the cap. */
  function RawRuleScore(m: Metrics): (s: nat)
    ensures s <= 115
  {
    Points(m.cpu, CpuBracket) + Points(m.memory, MemoryBracket) + Points(m.disk, DiskBracket)
    + Points(m.latency, LatencyBracket) + Points(m.errorRate, ErrorBracket)
    + Points(m.queue, QueueBracket)
  }

  /** A bracket that pays in steps of five contributes a multiple of five. */
  lemma PointsStepsOfFive(v: real, b: Bracket)
    requires InSteps(b)
    ensures Points(v, b) % 5 == 0
  {
  }

  /** Every contribution is 10, 15, 20 or 25, so the raw sum is a multiple of five. */
  lemma RawRuleScoreStepsOfFive(m: Metrics)
    ensures RawRuleScore(m) % 5 == 0
  {
    PointsStepsOfFive(m.cpu, CpuBracket);
    PointsStepsOfFive(m.memory, MemoryBracket);
    PointsStepsOfFive(m.disk, DiskBracket);
    PointsStepsOfFive(m.latency, LatencyBracket);
    PointsStepsOfFive(m.errorRate, ErrorBracket);
    PointsStepsOfFive(m.queue, QueueBracket);
    SumOfMultiplesOfFive(Points(m.cpu, CpuBracket), Points(m.memory, MemoryBracket),
      Points(m.disk, DiskBracket), Points(m.latency, LatencyBracket),
      Points(m.errorRate, ErrorBracket), Points(m.queue, QueueBracket));
  }

  lemma SumOfMultiplesOfFive(a: int, b: int, c: int, d: int, e: int, f: int)
    requires a % 5 == 0 && b % 5 == 0 && c % 5 == 0 && d % 5 == 0 && e % 5 == 0 && f % 5 == 0
    ensures (a + b + c + d + e + f) % 5 == 0
  {
    assert a + b + c + d + e + f == 5 * (a / 5 + b / 5 + c / 5 + d / 5 + e / 5 + f / 5);
  }

  /** The rule score: the raw sum capped at 100. */
  function RuleScore(m: Metrics): (r: nat)
    ensures r <= RuleCap
    ensures r == RawRuleScore(m) || (r == RuleCap && RawRuleScore(m) > RuleCap)
  {
    if RawRuleScore(m) < RuleCap then RawRuleScore(m) else RuleCap
  }

  /** `smart_failure_risk`: six bracket updates of an accumulator, then the cap. */
  method SmartFailureRisk(m: Metrics) returns (score: int)
    ensures score == RuleScore(m)
    ensures 0 <= score <= RuleCap
  {
    score := 0;
    if m.cpu > 85.0 {
      score := score + 20;
    } else if m.cpu > 70.0 {
      score := score + 10;
    }
    assert score == Points(m.cpu, CpuBracket);
    if m.memory > 85.0 {
      score := score + 20;
    } else if m.memory > 70.0 {
      score := score + 10;
    }
    assert score == Points(m.cpu, CpuBracket) + Points(m.memory, MemoryBracket);
    if m.disk > 120.0 {
      score := score + 15;
    } else if m.disk > 90.0 {
      score := score + 10;
    }
    ghost var upToDisk := score;
    assert upToDisk == Points(m.cpu, CpuBracket) + Points(m.memory, MemoryBracket) + Points(m.disk, DiskBracket);
    if m.latency > 300.0 {
      score := score + 20;
    } else if m.latency > 150.0 {
      score := score + 10;
    }
    assert score == upToDisk + Points(m.latency, LatencyBracket);
    if m.errorRate > 5.0 {
      score := score + 25;
    } else if m.errorRate > 2.0 {
      score := score + 15;
    }
    assert score == upToDisk + Points(m.latency, LatencyBracket) + Points(m.errorRate, ErrorBracket);
    if m.queue > 100.0 {
      score := score + 15;
    } else if m.queue > 50.0 {
      score := score + 10;
    }
    assert score == RawRuleScore(m);
    score := if score < 100 then score else 100;
  }

  /** No reading is above its mid breakpoint. */
  predicate AllCalm(m: Metrics) {
    m.cpu <= CpuBracket.mid && m.memory <= MemoryBracket.mid && m.disk <= DiskBracket.mid
    && m.latency <= LatencyBracket.mid && m.errorRate <= ErrorBracket.mid
    && m.queue <= QueueBracket.mid
  }

  /** `m1` is nowhere worse than `m2`. */
  predicate NoWorse(m1: Metrics, m2: Metrics) {
    m1.cpu <= m2.cpu && m1.memory <= m2.memory && m1.disk <= m2.disk
    && m1.latency <= m2.latency && m1.errorRate <= m2.errorRate && m1.queue <= m2.queue
  }

  /** The rule score is zero exactly when every reading is at or below its mid breakpoint. */
  lemma RuleScoreZeroIffCalm(m: Metrics)
    ensures RuleScore(m) == 0 <==> AllCalm(m)
  {
  }

  /** A higher value never earns a bracket fewer points. */
  lemma PointsMonotone(v1: real, v2: real, b: Bracket)
    requires WellFormed(b)
    requires v1 <= v2
    ensures Points(v1, b) <= Points(v2, b)
  {
  }

  /** Raising any readings never lowers the rule score. */
  lemma RuleScoreMonotone(m1: Metrics, m2: Metrics)
    requires NoWorse(m1, m2)
    ensures RuleScore(m1) <= RuleScore(m2)
  {
    PointsMonotone(m1.cpu, m2.cpu, CpuBracket);
    PointsMonotone(m1.memory, m2.memory, MemoryBracket);
    PointsMonotone(m1.disk, m2.disk, DiskBracket);
    PointsMonotone(m1.latency, m2.latency, LatencyBracket);
    PointsMonotone(m1.errorRate, m2.errorRate, ErrorBracket);
    PointsMonotone(m1.queue, m2.queue, QueueBracket);
  }

  /** The raw sum can exceed the cap, so the cap is not dead code. */
  lemma RawRuleScoreReaches115()
    ensures RawRuleScore(Metrics(95.0, 96.0, 150.0, 400.0, 8.0, 150.0)) == 115
    ensures RuleScore(Metrics(95.0, 96.0, 150.0, 400.0, 8.0, 150.0)) == 100
  {
  }

  /** What `predict_proba` returns for the failure class: a unit probability. */
  type Probability = p: real | 0.0 <= p <= 1.0

  /** The learned estimator: no model file was loaded, or the model's probability for these metrics. */
  datatype Estimate = NoModel | Learned(proba: Probability)

  /** `ml_prob`: 0 without a model, else the probability as a percentage rounded to two decimals. */
  function LearnedPercent(ml: Estimate): (p: real)
    ensures 0.0 <= p <= 100.0
    ensures IsCents(p)
    ensures ml.NoModel? ==> p == 0.0
    ensures ml.Learned? ==> ml.proba * 100.0 - 0.005 <= p <= ml.proba * 100.0 + 0.005
  {
    match ml
    case NoModel => IntIsCents(0); 0.0
    case Learned(q) => Round2Within(q * 100.0, 0, 100); Round2(q * 100.0)
  }

  /** `predict_failure`: the more alarming of the rule score and the learned percentage. */
  function PredictFailure(m: Metrics, ml: Estimate): (r: real)
    ensures r >= RuleScore(m) as real && r >= LearnedPercent(ml)
    ensures r == RuleScore(m) as real || r == LearnedPercent(ml)
    ensures 0.0 <= r <= 100.0
    ensures IsCents(r)
  {
    var rule := RuleScore(m) as real;
    var best := if rule >= LearnedPercent(ml) then rule else LearnedPercent(ml);
    IntIsCents(RuleScore(m));
    Round2OfCents(best);
    Round2(best)
  }

  /** Without a model the base probability is the rule score exactly. */
  lemma PredictFailureWithoutModel(m: Metrics)
    ensures PredictFailure(m, NoModel) == RuleScore(m) as real
  {
  }

  /** For a fixed learned estimate, raising readings never lowers the base probability. */
  lemma PredictFailureMonotone(m1: Metrics, m2: Metrics, ml: Estimate)
    requires NoWorse(m1, m2)
    ensures PredictFailure(m1, ml) <= PredictFailure(m2, ml)
  {
    RuleScoreMonotone(m1, m2);
  }
}
