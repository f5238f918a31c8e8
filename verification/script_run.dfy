/**
 x7k9-signal/api/run.py: the command-line version of the signal script.
 It indexes JSON directly instead of going through `safe_get`, divides the
 ATR by a fixed 14, and lets the exceptions of the candle fetch and of the
 report escape `main`.
 */
module ScriptRun {
  import opened Wrappers
  import opened Json
  import opened News
  import opened Candles
  import opened Indicators
  import opened Gate
  import opened Advisory

  const AtrPeriod: real := 14.0

  // ----- get_okx_kline -----

  /**
   The samples `tr_list[-14:]` keeps: one per row from row 1 on, of which
   only the last fourteen, i.e. rows max(1, n-14) .. n-1. There are none
   with fewer than two rows.
   */
  function Window(rows: seq<Candle>): (w: seq<real>)
    ensures |rows| < 2 ==> w == []
    ensures |rows| >= 2 ==> |w| == Min(14, |rows| - 1)
    ensures |rows| >= 2 ==> forall j :: 0 <= j < |w| ==>
      w[j] == TrueRange(rows[|rows| - |w| + j - 1].close, rows[|rows| - |w| + j])
    ensures AllAtLeast(w, 0.0)
  {
    if |rows| < 2 then []
    else
      SamplesNonNegative(rows, Max(1, |rows| - 14), |rows|);
      Samples(rows, Max(1, |rows| - 14), |rows|)
  }

  /**
   `sum(tr_list[-14:]) / 14`: the window's total over a fixed 14 however
   many samples there are, so never negative and never above the largest
   sample.
   */
  function Atr(rows: seq<Candle>): (atr: real)
    ensures 0.0 <= atr
    ensures atr * AtrPeriod == Sum(Window(rows))
  {
    SumAtLeast(Window(rows), 0.0);
    Sum(Window(rows)) / AtrPeriod
  }

  /** The ATR is at most any bound on all its samples. */
  lemma AtrAtMostLargestSample(rows: seq<Candle>, hi: real)
    requires AllAtMost(Window(rows), hi) && hi >= 0.0
    ensures Atr(rows) <= hi
  {
    SumOverAtMost(Window(rows), AtrPeriod, hi);
  }

  /** The ATR is at most the largest true-range sample of its window. */
  lemma AtrAtMostPeak(rows: seq<Candle>)
    requires |rows| >= 2
    ensures Atr(rows) <= Peak(Window(rows))
  {
    var w := Window(rows);
    assert 0.0 <= w[0] <= Peak(w);
    AtrAtMostLargestSample(rows, Peak(w));
  }

  /**
   `get_okx_kline`: a non-200 status gives no quote; a failed request, or a
   200 response with fewer than two rows (`closes[-2]` raises), escapes as
   an exception.
   */
  function Kline(resp: KlineResponse): (r: Attempt<Option<Quote>>)
    ensures r.Raised? <==> resp.NoResponse? || (resp.status == 200 && |resp.rows| < 2)
    ensures r.Returned? && r.value.None? <==> resp.Response? && resp.status != 200
    ensures r.Returned? && r.value.Some? ==>
      && Quoted(r).price == resp.rows[|resp.rows| - 1].close
      && Quoted(r).prevPrice == resp.rows[|resp.rows| - 2].close
      && Quoted(r).atr == Atr(resp.rows)
  {
    match resp
    case NoResponse => Raised
    case Response(status, rows) =>
      if status != 200 then Returned(None)
      else if |rows| < 2 then Raised
      else Returned(Some(Quote(rows[|rows| - 1].close, rows[|rows| - 2].close, Atr(rows))))
  }

  /** The quote of a candle fetch that returned one. */
  function Quoted(r: Attempt<Option<Quote>>): Quote
    requires r.Returned? && r.value.Some?
  {
    r.value.value
  }

  // ----- get_coinglass_data -----

  /**
   `(prev_holdings - holdings) / prev_holdings` with no guard: too few rows
   (IndexError) or a zero previous value (ZeroDivisionError) give None, a
   negative previous value still gives a ratio.
   */
  function HoldingChange(holdings: seq<real>): (r: Option<real>)
    ensures r.Some? <==> |holdings| >= 2 && holdings[|holdings| - 2] != 0.0
    ensures r.Some? ==>
      var prev, curr := holdings[|holdings| - 2], holdings[|holdings| - 1];
      r.value * prev == prev - curr
  {
    if |holdings| >= 2 && holdings[|holdings| - 2] != 0.0 then
      var prev, curr := holdings[|holdings| - 2], holdings[|holdings| - 1];
      Some((prev - curr) / prev)
    else None
  }

  /**
   `get_coinglass_data`: fear/greed and MVRV Z-score are fetched in one try
   block, so both are available or neither is.
   */
  function Collect(f: Feeds): (m: Metrics)
    ensures m.fearGreed.Some? <==> m.mvrvZ.Some?
    ensures m.fearGreed.Some? <==> |f.fearGreed| > 0 && |f.mvrvZ| > 0
    ensures m.longShort.Some? <==> |f.longShort| > 0
    ensures m.fundingRate.Some? <==> |f.funding| > 0
    ensures m.liqRatio.Some? <==> |f.liquidations| > 0
    ensures m.holdingChange == HoldingChange(f.holdings)
    ensures m.longShort.Some? ==> m.longShort.value == f.longShort[|f.longShort| - 1]
    ensures m.fundingRate.Some? ==> m.fundingRate.value == f.funding[0]
    ensures m.liqRatio.Some? ==> m.liqRatio.value == LiqRatio(f.liquidations[|f.liquidations| - 1])
    ensures m.fearGreed.Some? ==> m.fearGreed.value == f.fearGreed[|f.fearGreed| - 1]
    ensures m.mvrvZ.Some? ==> m.mvrvZ.value == f.mvrvZ[|f.mvrvZ| - 1]
  {
    var sentiment := if |f.fearGreed| > 0 && |f.mvrvZ| > 0 then (Last(f.fearGreed), Last(f.mvrvZ)) else (None, None);
    Metrics(
      Last(f.longShort),
      First(f.funding),
      HoldingChange(f.holdings),
      LatestLiqRatio(f.liquidations),
      sentiment.0,
      sentiment.1)
  }

  /** A missing fear/greed reading, or a missing MVRV Z-score, shuts the sentiment condition. */
  lemma EitherSentimentFeedShutsSentiment(q: Quote, f: Feeds)
    requires |f.fearGreed| == 0 || |f.mvrvZ| == 0
    ensures !Evaluate(q, Collect(f)).sentiment
  {
  }

  // ----- check_news_alert -----

  /** `item['title']`, None where that raises: on anything but a dict, or a dict without the key. */
  function TitleOf(item: J): (t: Option<J>)
    ensures t.Some? <==> item.JObj? && "title" in item.fields
    ensures t.Some? ==> t.value == item.fields["title"]
  {
    match item
    case JObj(fields) => if "title" in fields then Some(fields["title"]) else None
    case _ => None
  }

  function Titles(items: seq<J>): (ts: seq<Option<J>>)
    ensures |ts| == |items|
    ensures forall i :: 0 <= i < |items| ==> ts[i] == TitleOf(items[i])
  {
    seq(|items|, i requires 0 <= i < |items| => TitleOf(items[i]))
  }

  /**
   The items the loop visits: the top-level list of the response. Iterating
   a str or a dict yields strings and indexing one with 'title' raises, as
   does iterating a scalar; a failed request raises too. The `except` turns
   all of these into "not triggered", as an empty feed does.
   */
  function FeedItems(news: Option<J>): (items: seq<J>)
    ensures news.Some? && news.value.JArr? ==> items == news.value.items
    ensures !(news.Some? && news.value.JArr?) ==> items == []
  {
    match news
    case Some(JArr(items)) => items
    case _ => []
  }

  /** `check_news_alert`: the first item whose title holds a keyword trips the breaker. */
  function CheckNews(news: Option<J>): (a: Alert)
    ensures news.None? ==> a == Quiet
    ensures a.Tripped? ==>
      exists i :: FirstHit(Titles(FeedItems(news)), i) && TitleOf(FeedItems(news)[i]) == Some(a.title)
  {
    Scan(Titles(FeedItems(news)))
  }

  /** The first item whose title matches, after items whose titles matched nothing, is the one reported. */
  lemma FirstMatchingTitleTrips(news: Option<J>, i: int)
    requires FirstHit(Titles(FeedItems(news)), i)
    ensures CheckNews(news) == Tripped(TitleOf(FeedItems(news)[i]).value)
  {
    ScanFindsFirstHit(Titles(FeedItems(news)), i);
  }

  /**
   A document that is a dict is iterated over its string keys, and
   indexing a string with 'title' raises, so this breaker never trips on it.
   */
  lemma DictDocumentNeverTrips(fields: map<string, J>)
    ensures CheckNews(Some(JObj(fields))) == Quiet
  {
  }

  /** An item without a title ends the scan: no later item can trip the breaker. */
  lemma UntitledItemEndsScan(items: seq<J>, i: int)
    requires 0 <= i < |items| && TitleOf(items[i]).None?
    ensures forall k :: i < k ==> !FirstHit(Titles(items), k)
  {
  }

  // ----- main -----

  /** `not price or not atr`: a zero price or a zero ATR aborts the run; the previous price is not checked. */
  predicate Usable(q: Quote) {
    q.price != 0.0 && q.atr != 0.0
  }

  /**
   `main`: the breaker first, then the candle fetch and guard, then
   evaluation, report and recommendation. An `Error` stands for an
   exception that escapes `main`: from the candle fetch or from the report.
   */
  function Run(news: Option<J>, kline: KlineResponse, feeds: Feeds): (out: seq<Msg>)
    ensures WellShaped(out)
    ensures CheckNews(news).Tripped? ==> out == [Notice(CheckNews(news).title)]
    ensures CheckNews(news) == Quiet && Kline(kline).Raised? ==> out == [Error]
    ensures CheckNews(news) == Quiet && Kline(kline) == Returned(None) ==> out == []
    ensures CheckNews(news) == Quiet && Kline(kline).Returned? && Kline(kline).value.Some? ==>
      var q, m := Quoted(Kline(kline)), Collect(feeds);
      && (!Usable(q) ==> out == [])
      && (q.price == 0.0 || q.atr == 0.0 ==> out == [])
      && (q.price != 0.0 && q.atr != 0.0 ==> out != [])
      && (Usable(q) ==> (out == [Error] <==> !Formattable(m)))
      && (Usable(q) && Formattable(m) ==> |out| > 0 && out[0] == Report(q.price, Evaluate(q, m)))
  {
    match CheckNews(news)
    case Tripped(t) => [Notice(t)]
    case Quiet =>
      match Kline(kline)
      case Raised => [Error]
      case Returned(None) => []
      case Returned(Some(q)) => if Usable(q) then Compose(q, Collect(feeds)) else []
  }

  /** Candles that all sit at one price have no range, so the ATR is zero and the run ends silently. */
  lemma FlatCandlesSilenceRun(news: Option<J>, rows: seq<Candle>, feeds: Feeds, p: real)
    requires CheckNews(news) == Quiet && |rows| >= 2
    requires forall j :: 0 <= j < |rows| ==> rows[j] == Candle(p, p, p)
    ensures Run(news, Response(200, rows), feeds) == []
  {
    var w := Window(rows);
    assert AllAtMost(w, 0.0);
    SumAtMost(w, 0.0);
  }

  /**
   A recommendation is sent exactly when the breaker stays quiet, a usable
   quote arrives and all six conditions hold on it.
   */
  lemma RecommendsIff(news: Option<J>, kline: KlineResponse, feeds: Feeds)
    ensures Recommends(Run(news, kline, feeds)) <==>
      && CheckNews(news) == Quiet
      && Kline(kline).Returned? && Kline(kline).value.Some? && Usable(Quoted(Kline(kline)))
      && AllHold(Evaluate(Quoted(Kline(kline)), Collect(feeds)))
  {
  }

  /** Every recommendation sent has its stop below and its target above a positive entry price. */
  lemma RecommendationBracketsPrice(news: Option<J>, kline: KlineResponse, feeds: Feeds)
    ensures forall r :: r in Run(news, kline, feeds) && r.Recommendation? ==>
      0.0 < r.entry && r.stop < r.entry < r.target
  {
    match CheckNews(news)
    case Tripped(_) =>
    case Quiet =>
      match Kline(kline)
      case Raised =>
      case Returned(None) =>
      case Returned(Some(q)) =>
        if Usable(q) {
          ComposeBracketsPrice(q, Collect(feeds));
        }
  }
}
