/**
 The six entry conditions and their conjunction, identical in both
 versions of the script.
 */
module Gate {
  import opened Wrappers
  import opened Candles
  import opened Indicators

  const VolatilityCap: real := 0.02
  const CrowdLow: real := 0.8
  const CrowdHigh: real := 1.3
  const FundingLow: real := -0.0003
  const FundingHigh: real := 0.0005
  const OutflowMin: real := 0.01
  const SqueezeMin: real := 0.55
  const FearGreedLow: int := 20
  const FearGreedHigh: int := 80
  const MvrvLow: real := -2.0
  const MvrvHigh: real := 3.0

  /** cond1: the price rose and the ATR stays under 2% of the price. */
  predicate Trend(q: Quote) {
    q.price > q.prevPrice && q.atr < q.price * VolatilityCap
  }

  /** cond2: the top-trader long/short ratio lies in [0.8, 1.3]. */
  predicate Crowd(ratio: Option<real>) {
    ratio.Some? && CrowdLow <= ratio.value <= CrowdHigh
  }

  /** cond3: the funding rate lies in [-0.0003, 0.0005]. */
  predicate Funding(rate: Option<real>) {
    rate.Some? && FundingLow <= rate.value <= FundingHigh
  }

  /** cond4: open interest fell by at least 1%. */
  predicate Outflow(change: Option<real>) {
    change.Some? && change.value >= OutflowMin
  }

  /** cond5: shorts make up strictly more than 55% of liquidations. */
  predicate Squeeze(ratio: Option<real>) {
    ratio.Some? && ratio.value > SqueezeMin
  }

  /** cond6: fear/greed in [20, 80] and MVRV Z-score in [-2, 3]. */
  predicate Sentiment(fearGreed: Option<int>, mvrvZ: Option<real>) {
    && fearGreed.Some? && FearGreedLow <= fearGreed.value <= FearGreedHigh
    && mvrvZ.Some? && MvrvLow <= mvrvZ.value <= MvrvHigh
  }

  /** cond1 .. cond6 of one run. */
  datatype Conditions = Conditions(
    trend: bool, crowd: bool, funding: bool, outflow: bool, squeeze: bool, sentiment: bool)

  /** `all_cond`. */
  predicate AllHold(c: Conditions) {
    c.trend && c.crowd && c.funding && c.outflow && c.squeeze && c.sentiment
  }

  /** Every reading the gate consults is available. */
  predicate AllAvailable(m: Metrics) {
    && m.longShort.Some? && m.fundingRate.Some? && m.holdingChange.Some?
    && m.liqRatio.Some? && m.fearGreed.Some? && m.mvrvZ.Some?
  }

  /**
   Evaluate the six conditions. A condition whose reading is unavailable
   is false, so the gate can only open when every reading is available.
   */
  function Evaluate(q: Quote, m: Metrics): (c: Conditions)
    ensures c.trend <==> q.price > q.prevPrice && q.atr < 0.02 * q.price
    ensures c.crowd <==> m.longShort.Some? && 0.8 <= m.longShort.value <= 1.3
    ensures c.funding <==> m.fundingRate.Some? && -0.0003 <= m.fundingRate.value <= 0.0005
    ensures c.outflow <==> m.holdingChange.Some? && m.holdingChange.value >= 0.01
    ensures c.squeeze <==> m.liqRatio.Some? && m.liqRatio.value > 0.55
    ensures c.sentiment <==>
      && m.fearGreed.Some? && 20 <= m.fearGreed.value <= 80
      && m.mvrvZ.Some? && -2.0 <= m.mvrvZ.value <= 3.0
    ensures m.longShort.None? ==> !c.crowd
    ensures m.fundingRate.None? ==> !c.funding
    ensures m.holdingChange.None? ==> !c.outflow
    ensures m.liqRatio.None? ==> !c.squeeze
    ensures m.fearGreed.None? || m.mvrvZ.None? ==> !c.sentiment
    ensures AllHold(c) ==> AllAvailable(m)
    ensures q.atr >= 0.0 && c.trend ==> q.price > 0.0
  {
    Conditions(
      Trend(q),
      Crowd(m.longShort),
      Funding(m.fundingRate),
      Outflow(m.holdingChange),
      Squeeze(m.liqRatio),
      Sentiment(m.fearGreed, m.mvrvZ))
  }

  /**
   The gate is a plain conjunction: it opens exactly when each of the six
   tests passes, and a single failing test keeps it shut.
   */
  lemma GateIsConjunction(q: Quote, m: Metrics)
    ensures AllHold(Evaluate(q, m)) <==>
      && Trend(q) && Crowd(m.longShort) && Funding(m.fundingRate)
      && Outflow(m.holdingChange) && Squeeze(m.liqRatio) && Sentiment(m.fearGreed, m.mvrvZ)
  {
  }

  /** Which bounds are inclusive and which strict. */
  lemma BoundaryValues()
    ensures Crowd(Some(0.8)) && Crowd(Some(1.3)) && !Crowd(Some(0.79)) && !Crowd(Some(1.31))
    ensures Funding(Some(-0.0003)) && Funding(Some(0.0005)) && !Funding(Some(0.001))
    ensures Outflow(Some(0.01)) && !Outflow(Some(0.009))
    ensures !Squeeze(Some(0.55)) && Squeeze(Some(0.56))
    ensures Sentiment(Some(20), Some(-2.0)) && Sentiment(Some(80), Some(3.0))
    ensures !Sentiment(Some(19), Some(0.0)) && !Sentiment(Some(50), Some(3.1))
  {
  }

  /** The accepted values of each band form an interval: between two accepted values, all are accepted. */
  lemma BandsAreIntervals(a: real, b: real, x: real)
    requires a <= x <= b
    ensures Crowd(Some(a)) && Crowd(Some(b)) ==> Crowd(Some(x))
    ensures Funding(Some(a)) && Funding(Some(b)) ==> Funding(Some(x))
    ensures Outflow(Some(a)) ==> Outflow(Some(x))
    ensures Squeeze(Some(a)) ==> Squeeze(Some(x))
  {
  }

  /**
   With a positive total, the squeeze test passes exactly when short
   liquidations exceed 55% of the total; the 0.5 default never passes.
   */
  lemma SqueezeMeansShortDominance(l: Liq)
    ensures Squeeze(Some(LiqRatio(l))) <==>
      l.long + l.short > 0.0 && l.short > SqueezeMin * (l.long + l.short)
  {
    var t := l.long + l.short;
    if t > 0.0 {
      ShareAbove(l.short, t, LiqRatio(l), SqueezeMin);
    }
  }

  /** A share r of a positive total t exceeds c exactly when the part it measures exceeds c * t. */
  lemma ShareAbove(part: real, t: real, r: real, c: real)
    requires t > 0.0 && r * t == part
    ensures r > c <==> part > c * t
  {
    ScaleByPositive(r, c, t);
  }

  /** Multiplying both sides by a positive factor keeps a strict or non-strict comparison. */
  lemma ScaleByPositive(x: real, c: real, t: real)
    requires t > 0.0
    ensures x > c <==> x * t > c * t
    ensures x >= c <==> x * t >= c * t
  {
    assert x * t - c * t == (x - c) * t;
  }

  /** The all-conditions-met scenario: 50500 over 50000 with ATR 500 and neutral readings. */
  lemma ScenarioAllMet()
    ensures AllHold(Evaluate(Quote(50500.0, 50000.0, 500.0),
      Metrics(Some(1.0), Some(0.0001), Some(0.02), Some(0.6), Some(50), Some(0.0))))
    ensures !AllHold(Evaluate(Quote(50500.0, 50000.0, 500.0),
      Metrics(Some(1.0), Some(0.001), Some(0.02), Some(0.6), Some(50), Some(0.0))))
  {
  }
}
