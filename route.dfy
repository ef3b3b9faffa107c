/**
 * The POST branch of the `index` route (app.py:38-78) once the six readings
 * are parsed: compute the base probability, score it, then record the outcome in the history.
 */
module Route {
  import opened Rounding
  import opened ModelUtils
  import opened Hybrid
  import opened Ledger

  /** Score one request and append its row; the row's risk is the reported risk unchanged. */
  method Submit(history: History, m: Metrics, ml: Estimate, time: string)
    returns (result: real, level: Tier, recommendation: string)
    modifies history
    ensures result == FinalRisk(m, ml) && level == TierOf(result)
    ensures recommendation == Recommendation(level)
    ensures history.events == Step(old(history.events), Event(
      time, result, level, m.cpu, m.memory, m.latency, m.errorRate, m.queue))
    ensures old(history.Valid()) ==> history.Valid()
  {
    var mlScore := PredictFailure(m, ml);
    result, level, recommendation := Score(m, mlScore);
    Round2OfCents(result);
    history.Append(time, result, level, m);
  }
}
