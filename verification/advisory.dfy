/**
 What one run hands to the notifier, and the report-and-recommendation
 tail both versions of the script share once the inputs are in.
 */
module Advisory {
  import opened Wrappers
  import opened Json
  import opened Candles
  import opened Indicators
  import opened Gate

  /**
   The kinds of message a run produces, in the order it produces them:
   the breaker notice with the matching title, the evaluation report, the
   entry/target/stop suggestion, or an exception that ends the run.
   */
  datatype Msg =
    | Notice(title: J)
    | Report(price: real, conditions: Conditions)
    | Recommendation(entry: real, target: real, stop: real)
    | Error

  const TargetFactor: real := 1.022
  const StopFactor: real := 0.979

  /** The suggestion for a long entry at `price`: take profit 2.2% above, stop 2.1% below. */
  function Recommend(price: real): (m: Msg)
    ensures m.Recommendation? && m.entry == price
    ensures m.target - price == 0.022 * price && price - m.stop == 0.021 * price
    ensures price > 0.0 ==> m.stop < price < m.target
  {
    Recommendation(price, price * TargetFactor, price * StopFactor)
  }

  /** The recommendation for a 50000 entry. */
  lemma RecommendAt50000()
    ensures Recommend(50000.0) == Recommendation(50000.0, 51100.0, 48950.0)
  {
  }

  /**
   The report's f-string formats the long/short ratio, funding rate,
   holding change, liquidation ratio and MVRV Z-score with numeric format
   specifications; formatting None that way raises, so the report can only
   be built when all five are available. The fear/greed index is formatted
   without a specification and may be None.
   */
  predicate Formattable(m: Metrics) {
    m.longShort.Some? && m.fundingRate.Some? && m.holdingChange.Some? && m.liqRatio.Some? && m.mvrvZ.Some?
  }

  /**
   The shape of every run's output: nothing, a lone breaker notice, a lone
   error, a report whose gate is shut, or a report whose gate is open
   followed by the recommendation at the reported price.
   */
  predicate WellShaped(out: seq<Msg>) {
    || out == []
    || (|out| == 1 && out[0].Notice?)
    || out == [Error]
    || (|out| == 1 && out[0].Report? && !AllHold(out[0].conditions))
    || (&& |out| == 2 && out[0].Report? && AllHold(out[0].conditions)
        && out[1] == Recommend(out[0].price))
  }

  /** Some message of `out` is a recommendation. */
  predicate Recommends(out: seq<Msg>) {
    exists i :: 0 <= i < |out| && out[i].Recommendation?
  }

  /**
   Evaluation, report and optional recommendation. The report is built
   before anything is sent, so a missing reading the report formats turns
   the whole tail into an error; otherwise the report is sent, and the
   recommendation follows it exactly when all six conditions hold.
   */
  function Compose(q: Quote, m: Metrics): (out: seq<Msg>)
    ensures WellShaped(out)
    ensures out == [Error] <==> !Formattable(m)
    ensures out == [Error] <==>
      m.longShort.None? || m.fundingRate.None? || m.holdingChange.None? || m.liqRatio.None? || m.mvrvZ.None?
    ensures Formattable(m) ==> |out| > 0 && out[0] == Report(q.price, Evaluate(q, m))
    ensures Recommends(out) <==> AllHold(Evaluate(q, m))
  {
    var c := Evaluate(q, m);
    if !Formattable(m) then [Error]
    else if AllHold(c) then [Report(q.price, c), Recommend(q.price)]
    else [Report(q.price, c)]
  }

  /**
   Every recommendation the tail sends brackets a positive entry: it is
   only sent when the trend test passed, which needs a positive price once
   the ATR is non-negative.
   */
  lemma ComposeBracketsPrice(q: Quote, m: Metrics)
    requires q.atr >= 0.0
    ensures forall r :: r in Compose(q, m) && r.Recommendation? ==>
      0.0 < r.entry && r.stop < r.entry < r.target
  {
  }
}
