/**
 * The hybrid risk block of the `index` route (app.py:41-76): take the base
 * probability, add the crisis bonuses, clamp to [0, 100], round, and map
 * the result to a tier and an advisory.
 */
module Hybrid {
  import opened Rounding
  import opened ModelUtils

  datatype Tier = Low | Medium | High

  /** The level string the page shows and the history stores. */
  function TierName(t: Tier): (s: string)
    ensures s == "HIGH" <==> t == High
    ensures s == "MEDIUM" <==> t == Medium
    ensures s == "LOW" <==> t == Low
  {
    match t
    case Low => "LOW"
    case Medium => "MEDIUM"
    case High => "HIGH"
  }

  const HighAdvice: string :=
    "\U{1F6A8} Auto-Scale services, restart impacted nodes, enable rate limiting, and trigger incident workflow."
  const MediumAdvice: string :=
    "\U{26A0}\U{FE0F} Monitor closely, scale resources gradually, clear queue backlogs, optimize services."
  const LowAdvice: string := "\U{2705} System stable. Continue monitoring."

  /** Tiers are checked high to low, the first threshold met wins. */
  function TierOf(risk: real): (t: Tier)
    ensures t == High <==> risk >= 80.0
    ensures t == Medium <==> 50.0 <= risk < 80.0
    ensures t == Low <==> risk < 50.0
  {
    if risk >= 80.0 then High
    else if risk >= 50.0 then Medium
    else Low
  }

  /** The advisory is looked up on the tier and nothing else. */
  function Recommendation(t: Tier): (s: string)
    ensures s == HighAdvice <==> t == High
    ensures s == MediumAdvice <==> t == Medium
    ensures s == LowAdvice <==> t == Low
  {
    match t
    case High => HighAdvice
    case Medium => MediumAdvice
    case Low => LowAdvice
  }

  /** Different tiers never share an advisory, so the advisory tells the tier. */
  lemma RecommendationDistinct(t1: Tier, t2: Tier)
    ensures Recommendation(t1) == Recommendation(t2) <==> t1 == t2
  {
  }

  /** One bonus: `points` when its trigger holds, else nothing. */
  function Bonus(trigger: bool, points: nat): nat {
    if trigger then points else 0
  }

  /** The four crisis bonuses, each triggered on its own and summed. */
  function CrisisBonus(m: Metrics): (b: nat)
    ensures b <= 70
    ensures b == 0 <==> m.cpu <= 85.0 && m.memory <= 90.0 && m.latency <= 300.0
                        && m.errorRate <= 5.0 && m.queue <= 100.0 && m.disk <= 140.0
  {
    Bonus(m.cpu > 85.0 || m.memory > 90.0, 25)
    + Bonus(m.latency > 300.0 || m.errorRate > 5.0, 20)
    + Bonus(m.queue > 100.0, 15)
    + Bonus(m.disk > 140.0, 10)
  }

  /** `max(0, min(risk, 100))`. */
  function Clamp(x: real): (r: real)
    ensures 0.0 <= r <= 100.0
    ensures 0.0 <= x <= 100.0 ==> r == x
    ensures x > 100.0 ==> r == 100.0
    ensures x < 0.0 ==> r == 0.0
  {
    if x > 100.0 then 100.0 else if x < 0.0 then 0.0 else x
  }

  /**
   * The hybrid block on a given base: bonuses added, clamped, rounded.
   * It stays in [0, 100], and it never drops below a base of at most 100
   * by more than the rounding, nor at all when the base has two decimals.
   */
  function HybridRisk(base: real, m: Metrics): (r: real)
    ensures 0.0 <= r <= 100.0
    ensures base <= 100.0 ==> r >= base - 0.005
    ensures base <= 100.0 && IsCents(base) ==> r >= base
    ensures IsCents(r)
  {
    var raw := Clamp(base + CrisisBonus(m) as real);
    Round2Within(raw, 0, 100);
    Round2AtLeastCents(base, raw);
    Round2(raw)
  }

  /** The risk the route reports for one request. */
  function FinalRisk(m: Metrics, ml: Estimate): (r: real)
    ensures 0.0 <= r <= 100.0
    ensures r >= PredictFailure(m, ml)
    ensures IsCents(r)
  {
    HybridRisk(PredictFailure(m, ml), m)
  }

  /** The hybrid block: four `risk +=` bonuses on the base, clamp, round, tier and advisory. */
  method Score(m: Metrics, mlScore: real) returns (result: real, level: Tier, recommendation: string)
    ensures result == HybridRisk(mlScore, m)
    ensures 0.0 <= result <= 100.0
    ensures level == TierOf(result)
    ensures recommendation == Recommendation(level)
  {
    var risk := mlScore;
    if m.cpu > 85.0 || m.memory > 90.0 {
      risk := risk + 25.0;
    }
    ghost var bonus := Bonus(m.cpu > 85.0 || m.memory > 90.0, 25);
    assert risk == mlScore + bonus as real;
    if m.latency > 300.0 || m.errorRate > 5.0 {
      risk := risk + 20.0;
    }
    bonus := bonus + Bonus(m.latency > 300.0 || m.errorRate > 5.0, 20);
    assert risk == mlScore + bonus as real;
    if m.queue > 100.0 {
      risk := risk + 15.0;
    }
    bonus := bonus + Bonus(m.queue > 100.0, 15);
    assert risk == mlScore + bonus as real;
    if m.disk > 140.0 {
      risk := risk + 10.0;
    }
    assert risk == mlScore + CrisisBonus(m) as real;
    var capped := if 100.0 < risk then 100.0 else risk;
    risk := if capped > 0.0 then capped else 0.0;
    assert risk == Clamp(mlScore + CrisisBonus(m) as real);
    result := Round2(risk);
    if result >= 80.0 {
      level := High;
      recommendation := HighAdvice;
    } else if result >= 50.0 {
      level := Medium;
      recommendation := MediumAdvice;
    } else {
      level := Low;
      recommendation := LowAdvice;
    }
  }

  /**
   * On a two-decimal base, such as the one `predict_failure` returns, the
   * bonuses are whole numbers, so the final rounding changes nothing.
   */
  lemma HybridRiskOfCents(base: real, m: Metrics)
    requires IsCents(base)
    ensures HybridRisk(base, m) == Clamp(base + CrisisBonus(m) as real)
  {
    CentsPlusInt(base, CrisisBonus(m));
    IntIsCents(0);
    IntIsCents(100);
    Round2OfCents(Clamp(base + CrisisBonus(m) as real));
  }

  /** Without a model the risk is the clamped sum of the rule score and the bonuses. */
  lemma DegradedMode(m: Metrics)
    ensures FinalRisk(m, NoModel) == Clamp(RuleScore(m) as real + CrisisBonus(m) as real)
  {
    HybridRiskOfCents(PredictFailure(m, NoModel), m);
    PredictFailureWithoutModel(m);
  }

  /** Raising readings never lowers a bonus trigger's total. */
  lemma CrisisBonusMonotone(m1: Metrics, m2: Metrics)
    requires NoWorse(m1, m2)
    ensures CrisisBonus(m1) <= CrisisBonus(m2)
  {
  }

  /** A higher base and no better readings never give a lower hybrid risk. */
  lemma HybridRiskMonotone(base1: real, base2: real, m1: Metrics, m2: Metrics)
    requires base1 <= base2 && NoWorse(m1, m2)
    ensures HybridRisk(base1, m1) <= HybridRisk(base2, m2)
  {
    CrisisBonusMonotone(m1, m2);
    Round2Monotone(Clamp(base1 + CrisisBonus(m1) as real), Clamp(base2 + CrisisBonus(m2) as real));
  }

  /** For a fixed learned estimate, raising readings never lowers the final risk. */
  lemma FinalRiskMonotone(m1: Metrics, m2: Metrics, ml: Estimate)
    requires NoWorse(m1, m2)
    ensures FinalRisk(m1, ml) <= FinalRisk(m2, ml)
  {
    PredictFailureMonotone(m1, m2, ml);
    CrisisBonusMonotone(m1, m2);
    HybridRiskMonotone(PredictFailure(m1, ml), PredictFailure(m2, ml), m1, m2);
  }

  /** A calm node without a model scores 0 and is LOW. */
  lemma ScenarioCalm()
    ensures FinalRisk(Metrics(30.0, 40.0, 20.0, 50.0, 0.5, 5.0), NoModel) == 0.0
    ensures TierOf(FinalRisk(Metrics(30.0, 40.0, 20.0, 50.0, 0.5, 5.0), NoModel)) == Low
  {
  }

  /** Hot CPU and memory without a model: rule score 40, bonus 25, risk 65, MEDIUM. */
  lemma ScenarioHotCpuAndMemory()
    ensures RuleScore(Metrics(90.0, 95.0, 50.0, 100.0, 1.0, 10.0)) == 40
    ensures FinalRisk(Metrics(90.0, 95.0, 50.0, 100.0, 1.0, 10.0), NoModel) == 65.0
    ensures TierOf(FinalRisk(Metrics(90.0, 95.0, 50.0, 100.0, 1.0, 10.0), NoModel)) == Medium
  {
  }

  /** Everything in crisis: the rule score saturates, all four bonuses fire, risk 100, HIGH. */
  lemma ScenarioEverythingInCrisis(ml: Estimate)
    ensures CrisisBonus(Metrics(95.0, 96.0, 150.0, 400.0, 8.0, 150.0)) == 70
    ensures FinalRisk(Metrics(95.0, 96.0, 150.0, 400.0, 8.0, 150.0), ml) == 100.0
    ensures TierOf(FinalRisk(Metrics(95.0, 96.0, 150.0, 400.0, 8.0, 150.0), ml)) == High
  {
  }
}
