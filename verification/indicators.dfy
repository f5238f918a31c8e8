/**
 The derivatives and sentiment readings `get_coinglass_data` collects,
 and the derivations both versions of it share.
 */
module Indicators {
  import opened Wrappers

  /** Long and short liquidation volume of one liquidation-chart row. */
  datatype Liq = Liq(long: real, short: real)

  /**
   The rows of each provider series, already converted to numbers. An
   empty series stands for both a failed request and an empty `data` list:
   every reading either version takes from such a series stays None.
   */
  datatype Feeds = Feeds(
    longShort: seq<real>,
    funding: seq<real>,
    holdings: seq<real>,
    liquidations: seq<Liq>,
    fearGreed: seq<int>,
    mvrvZ: seq<real>)

  /** The readings of one run, each None when it could not be obtained. */
  datatype Metrics = Metrics(
    longShort: Option<real>,
    fundingRate: Option<real>,
    holdingChange: Option<real>,
    liqRatio: Option<real>,
    fearGreed: Option<int>,
    mvrvZ: Option<real>)

  /** `data[-1]`, None on an empty series. */
  function Last<T>(s: seq<T>): (r: Option<T>)
    ensures r.Some? <==> |s| > 0
    ensures r.Some? ==> r.value == s[|s| - 1]
  {
    if |s| == 0 then None else Some(s[|s| - 1])
  }

  /** `data[0]`, None on an empty series. */
  function First<T>(s: seq<T>): (r: Option<T>)
    ensures r.Some? <==> |s| > 0
    ensures r.Some? ==> r.value == s[0]
  {
    if |s| == 0 then None else Some(s[0])
  }

  /**
   `short / (long + short)` when the total is positive, 0.5 otherwise:
   the share of the liquidated volume that was short positions.
   */
  function LiqRatio(l: Liq): (r: real)
    ensures l.long + l.short > 0.0 ==> r * (l.long + l.short) == l.short
    ensures l.long + l.short <= 0.0 ==> r == 0.5
    ensures 0.0 <= l.long && 0.0 <= l.short ==> 0.0 <= r <= 1.0
  {
    var total := l.long + l.short;
    if total > 0.0 then l.short / total else 0.5
  }

  /** The liquidation ratio of the latest liquidation row, None without rows. */
  function LatestLiqRatio(rows: seq<Liq>): (r: Option<real>)
    ensures r.Some? <==> |rows| > 0
    ensures r.Some? ==> r.value == LiqRatio(rows[|rows| - 1])
  {
    match Last(rows)
    case Some(l) => Some(LiqRatio(l))
    case None => None
  }
}
