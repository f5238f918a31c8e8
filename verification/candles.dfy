/**
 Candles and the true-range arithmetic both versions of `get_okx_kline`
 use to compute the average true range (ATR).
 */
module Candles {
  import opened Wrappers

  /** One 15-minute candle row, reduced to the three prices the ATR reads. */
  datatype Candle = Candle(high: real, low: real, close: real)

  /** What `get_okx_kline` returns when it has data: latest close, the close before it, and the ATR. */
  datatype Quote = Quote(price: real, prevPrice: real, atr: real)

  /**
   What the candle endpoint handed back: `NoResponse` when the request
   raised, or when a 200 response's body is not JSON; otherwise the status
   code with the candle rows of the body's `data` field (no rows when that
   field is missing). A body is only decoded on a 200 response, so any
   other status is a `Response` whatever its body.
   */
  datatype KlineResponse = NoResponse | Response(status: int, rows: seq<Candle>)

  /** The smaller of two row counts. */
  function Min(a: int, b: int): (r: int)
    ensures r <= a && r <= b && (r == a || r == b)
  {
    if a <= b then a else b
  }

  /** The larger of two row counts. */
  function Max(a: int, b: int): (r: int)
    ensures r >= a && r >= b && (r == a || r == b)
  {
    if a >= b then a else b
  }

  /** Python's `abs` on a number. */
  function Abs(x: real): (r: real)
    ensures r >= 0.0 && (r == x || r == -x)
  {
    if x < 0.0 then -x else x
  }

  /**
   `max(high - low, abs(high - prev_close), abs(low - prev_close))`: the
   least value bounding all three ranges, hence never negative.
   */
  function TrueRange(prevClose: real, c: Candle): (r: real)
    ensures r >= c.high - c.low && r >= Abs(c.high - prevClose) && r >= Abs(c.low - prevClose)
    ensures r == c.high - c.low || r == Abs(c.high - prevClose) || r == Abs(c.low - prevClose)
    ensures r >= 0.0
  {
    var a := c.high - c.low;
    var b := Abs(c.high - prevClose);
    var d := Abs(c.low - prevClose);
    if a >= b && a >= d then a else if b >= d then b else d
  }

  /**
   The true-range samples of rows lo .. hi-1 in row order, each row
   measured against the close of the row before it.
   */
  function Samples(rows: seq<Candle>, lo: nat, hi: nat): (s: seq<real>)
    requires 1 <= lo <= hi <= |rows|
    ensures |s| == hi - lo
    ensures forall j :: 0 <= j < |s| ==> s[j] == TrueRange(rows[lo + j - 1].close, rows[lo + j])
    decreases hi - lo
  {
    if lo == hi then []
    else Samples(rows, lo, hi - 1) + [TrueRange(rows[hi - 2].close, rows[hi - 1])]
  }

  /** Samples only read the rows they are drawn from: rows appended later change nothing. */
  lemma {:induction false} SamplesIgnoreLaterRows(rows: seq<Candle>, tail: seq<Candle>, lo: nat, hi: nat)
    requires 1 <= lo <= hi <= |rows|
    ensures Samples(rows + tail, lo, hi) == Samples(rows, lo, hi)
  {
    var a := Samples(rows + tail, lo, hi);
    var b := Samples(rows, lo, hi);
    assert forall j :: 0 <= j < |a| ==> a[j] == b[j];
  }

  /** Python's `sum`, adding left to right. */
  function Sum(s: seq<real>): real
    decreases |s|
  {
    if |s| == 0 then 0.0 else Sum(s[..|s| - 1]) + s[|s| - 1]
  }

  predicate AllAtLeast(s: seq<real>, lo: real) {
    forall j :: 0 <= j < |s| ==> lo <= s[j]
  }

  predicate AllAtMost(s: seq<real>, hi: real) {
    forall j :: 0 <= j < |s| ==> s[j] <= hi
  }

  /** A sum of n values, each at least lo, is at least n * lo. */
  lemma {:induction false} SumAtLeast(s: seq<real>, lo: real)
    requires AllAtLeast(s, lo)
    ensures (|s| as real) * lo <= Sum(s)
    decreases |s|
  {
    if |s| > 0 {
      var init := s[..|s| - 1];
      SumAtLeast(init, lo);
      assert (|s| as real) * lo == (|init| as real) * lo + lo;
    }
  }

  /** A sum of n values, each at most hi, is at most n * hi. */
  lemma {:induction false} SumAtMost(s: seq<real>, hi: real)
    requires AllAtMost(s, hi)
    ensures Sum(s) <= (|s| as real) * hi
    decreases |s|
  {
    if |s| > 0 {
      var init := s[..|s| - 1];
      SumAtMost(init, hi);
      assert (|s| as real) * hi == (|init| as real) * hi + hi;
    }
  }

  /** The largest value of a non-empty sequence. */
  function Peak(s: seq<real>): (m: real)
    requires |s| > 0
    ensures m in s
    ensures AllAtMost(s, m)
    decreases |s|
  {
    if |s| == 1 then s[0]
    else
      var init := s[..|s| - 1];
      var m := Peak(init);
      assert s == init + [s[|s| - 1]];
      if s[|s| - 1] > m then s[|s| - 1] else m
  }

  /** The arithmetic mean of a non-empty sequence. */
  function Mean(s: seq<real>): (m: real)
    requires |s| > 0
    ensures m * (|s| as real) == Sum(s)
    ensures AllAtLeast(s, 0.0) ==> 0.0 <= m
  {
    DivideThenMultiply(Sum(s), |s| as real);
    if AllAtLeast(s, 0.0) then
      MeanAtLeast(s, 0.0);
      Sum(s) / (|s| as real)
    else Sum(s) / (|s| as real)
  }

  /** The mean of values that are all at least lo is at least lo. */
  lemma MeanAtLeast(s: seq<real>, lo: real)
    requires |s| > 0 && AllAtLeast(s, lo)
    ensures lo <= Sum(s) / (|s| as real)
  {
    SumAtLeast(s, lo);
    QuotientAtLeast(Sum(s), |s| as real, lo);
  }

  /** The mean of values that are all at most hi is at most hi. */
  lemma MeanAtMost(s: seq<real>, hi: real)
    requires |s| > 0 && AllAtMost(s, hi)
    ensures Sum(s) / (|s| as real) <= hi
  {
    SumAtMost(s, hi);
    QuotientAtMost(Sum(s), |s| as real, hi);
  }

  /** Values that are all at most hi >= 0, summed and divided by d >= their count, stay at most hi. */
  lemma SumOverAtMost(s: seq<real>, d: real, hi: real)
    requires (|s| as real) <= d && 0.0 < d && 0.0 <= hi && AllAtMost(s, hi)
    ensures Sum(s) / d <= hi
  {
    SumAtMost(s, hi);
    ScaledBoundAtMost(Sum(s), |s| as real, d, hi);
  }

  lemma ScaledBoundAtMost(total: real, n: real, d: real, hi: real)
    requires 0.0 <= n <= d && 0.0 < d && 0.0 <= hi && total <= n * hi
    ensures total / d <= hi
  {
    assert n * hi <= d * hi;
    QuotientAtMost(total, d, hi);
  }

  lemma QuotientAtLeast(total: real, n: real, lo: real)
    requires n > 0.0 && n * lo <= total
    ensures lo <= total / n
  {
  }

  lemma QuotientAtMost(total: real, n: real, hi: real)
    requires n > 0.0 && total <= n * hi
    ensures total / n <= hi
  {
  }

  lemma DivideThenMultiply(total: real, n: real)
    requires n > 0.0
    ensures (total / n) * n == total
  {
  }

  /** Every true-range sample is non-negative. */
  lemma SamplesNonNegative(rows: seq<Candle>, lo: nat, hi: nat)
    requires 1 <= lo <= hi <= |rows|
    ensures AllAtLeast(Samples(rows, lo, hi), 0.0)
  {
  }
}
