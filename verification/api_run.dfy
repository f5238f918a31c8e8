/**
 api/run.py: the defensive version of the signal script, served as an
 HTTP handler. Every fetch is wrapped in try/except and JSON is read with
 `safe_get`; the only exception that can escape `run_logic` is the one the
 report f-string raises on a missing reading.
 */
module ApiRun {
  import opened Wrappers
  import opened Json
  import opened News
  import opened Candles
  import opened Indicators
  import opened Gate
  import opened Advisory

  // ----- get_okx_kline -----

  /**
   The true-range samples this version averages: rows 1 .. min(14, n-1),
   the first rows of the response, each against the close before it.
   */
  function Window(rows: seq<Candle>): (w: seq<real>)
    requires |rows| >= 2
    ensures |w| == Min(14, |rows| - 1) && |w| > 0
    ensures forall j :: 0 <= j < |w| ==> w[j] == TrueRange(rows[j].close, rows[j + 1])
    ensures AllAtLeast(w, 0.0)
  {
    SamplesNonNegative(rows, 1, Min(15, |rows|));
    Samples(rows, 1, Min(15, |rows|))
  }

  /**
   `sum(tr_list[-14:]) / len(tr_list[-14:])`: the mean of the window's
   samples. The list is never empty once two rows exist, so the `else 0`
   branch of the source cannot be taken and nothing divides by zero.
   */
  function Atr(rows: seq<Candle>): (atr: real)
    requires |rows| >= 2
    ensures 0.0 <= atr
    ensures atr == Mean(Window(rows))
  {
    Mean(Window(rows))
  }

  /** The ATR never exceeds a bound on every sample, so it is at most the largest sample. */
  lemma AtrAtMostLargestSample(rows: seq<Candle>, hi: real)
    requires |rows| >= 2 && AllAtMost(Window(rows), hi)
    ensures Atr(rows) <= hi
  {
    MeanAtMost(Window(rows), hi);
  }

  /** The ATR is at most the largest true-range sample of its window. */
  lemma AtrAtMostPeak(rows: seq<Candle>)
    requires |rows| >= 2
    ensures Atr(rows) <= Peak(Window(rows))
  {
    AtrAtMostLargestSample(rows, Peak(Window(rows)));
  }

  /**
   `get_okx_kline`: a quote needs a 200 response with at least two rows;
   price and previous price are the closes of the LAST two rows.
   */
  function Kline(resp: KlineResponse): (q: Option<Quote>)
    ensures q.Some? <==> resp.Response? && resp.status == 200 && |resp.rows| >= 2
    ensures q.Some? ==>
      && q.value.price == resp.rows[|resp.rows| - 1].close
      && q.value.prevPrice == resp.rows[|resp.rows| - 2].close
      && q.value.atr == Atr(resp.rows)
      && q.value.atr >= 0.0
  {
    match resp
    case NoResponse => None
    case Response(status, rows) =>
      if status == 200 && |rows| >= 2 then
        Some(Quote(rows[|rows| - 1].close, rows[|rows| - 2].close, Atr(rows)))
      else None
  }

  /**
   Once fifteen rows exist the ATR is fixed by them: rows added after them
   move the price and previous price but never the ATR.
   */
  lemma AtrIgnoresLaterRows(rows: seq<Candle>, tail: seq<Candle>)
    requires |rows| >= 15
    ensures Atr(rows + tail) == Atr(rows)
  {
    SamplesIgnoreLaterRows(rows, tail, 1, 15);
  }

  // ----- get_coinglass_data -----

  /**
   `(prev - curr) / prev` over the last two holdings rows, kept only when
   there are two rows and `prev > 0`: the fraction of open interest that
   left since the previous sample.
   */
  function HoldingChange(holdings: seq<real>): (r: Option<real>)
    ensures r.Some? <==> |holdings| >= 2 && holdings[|holdings| - 2] > 0.0
    ensures r.Some? ==>
      var prev, curr := holdings[|holdings| - 2], holdings[|holdings| - 1];
      r.value * prev == prev - curr && (r.value > 0.0 <==> curr < prev)
  {
    if |holdings| >= 2 then
      var prev, curr := holdings[|holdings| - 2], holdings[|holdings| - 1];
      if prev > 0.0 then
        var r := (prev - curr) / prev;
        ScaleByPositive(r, 0.0, prev);
        Some(r)
      else None
    else None
  }

  /** The outflow condition holds exactly when holdings fell by at least 1% of a positive previous value. */
  lemma OutflowMeansOnePercentDrop(holdings: seq<real>)
    ensures Outflow(HoldingChange(holdings)) <==>
      |holdings| >= 2 && holdings[|holdings| - 2] > 0.0 &&
      holdings[|holdings| - 2] - holdings[|holdings| - 1] >= OutflowMin * holdings[|holdings| - 2]
  {
    var r := HoldingChange(holdings);
    if r.Some? {
      var prev := holdings[|holdings| - 2];
      ScaleByPositive(r.value, OutflowMin, prev);
    }
  }

  /**
   `get_coinglass_data`: each reading comes from its own request under its
   own try/except, so each is available exactly when its own series is.
   */
  function Collect(f: Feeds): (m: Metrics)
    ensures m.longShort.Some? <==> |f.longShort| > 0
    ensures m.fundingRate.Some? <==> |f.funding| > 0
    ensures m.liqRatio.Some? <==> |f.liquidations| > 0
    ensures m.fearGreed.Some? <==> |f.fearGreed| > 0
    ensures m.mvrvZ.Some? <==> |f.mvrvZ| > 0
    ensures m.holdingChange == HoldingChange(f.holdings)
    ensures m.longShort.Some? ==> m.longShort.value == f.longShort[|f.longShort| - 1]
    ensures m.fundingRate.Some? ==> m.fundingRate.value == f.funding[0]
    ensures m.liqRatio.Some? ==> m.liqRatio.value == LiqRatio(f.liquidations[|f.liquidations| - 1])
    ensures m.fearGreed.Some? ==> m.fearGreed.value == f.fearGreed[|f.fearGreed| - 1]
    ensures m.mvrvZ.Some? ==> m.mvrvZ.value == f.mvrvZ[|f.mvrvZ| - 1]
  {
    Metrics(
      Last(f.longShort),
      First(f.funding),
      HoldingChange(f.holdings),
      LatestLiqRatio(f.liquidations),
      Last(f.fearGreed),
      Last(f.mvrvZ))
  }

  // ----- check_news_alert -----

  /** `safe_get(item, 'title', default='')`. */
  function TitleOf(item: J): (t: J)
    ensures item.JObj? && "title" in item.fields ==> t == item.fields["title"]
    ensures !(item.JObj? && "title" in item.fields) ==> t == JStr("")
  {
    SafeGet(item, [Name("title")], JStr(""))
  }

  /** The titles of the feed items, in feed order; reading them never raises. */
  function Titles(items: seq<J>): (ts: seq<Option<J>>)
    ensures |ts| == |items|
    ensures forall i :: 0 <= i < |items| ==> ts[i] == Some(TitleOf(items[i]))
  {
    seq(|items|, i requires 0 <= i < |items| => Some(TitleOf(items[i])))
  }

  /**
   The items the loop visits: the list under the response's `data` key
   (`[]` by default). Iterating a str or a dict there would yield strings,
   which never trip (StringItemsNeverTrip); iterating a scalar raises a
   TypeError the `except` swallows; a failed request is swallowed too. All
   of these end in "not triggered", as an empty feed does.
   */
  function FeedItems(news: Option<J>): (items: seq<J>)
    ensures news.Some? && news.value.JObj? && "data" in news.value.fields && news.value.fields["data"].JArr?
      ==> items == news.value.fields["data"].items
    ensures !(news.Some? && news.value.JObj? && "data" in news.value.fields && news.value.fields["data"].JArr?)
      ==> items == []
  {
    match news
    case None => []
    case Some(doc) =>
      match SafeGet(doc, [Name("data")], JArr([]))
      case JArr(items) => items
      case _ => []
  }

  /**
   `check_news_alert`: the first item whose title holds a keyword trips the
   breaker with that title; a feed that cannot be fetched never trips it.
   */
  function CheckNews(news: Option<J>): (a: Alert)
    ensures news.None? ==> a == Quiet
    ensures a.Tripped? ==>
      exists i :: FirstHit(Titles(FeedItems(news)), i) && a.title == TitleOf(FeedItems(news)[i])
  {
    Scan(Titles(FeedItems(news)))
  }

  /** The first item whose title matches, after items whose titles matched nothing, is the one reported. */
  lemma FirstMatchingTitleTrips(news: Option<J>, i: int)
    requires FirstHit(Titles(FeedItems(news)), i)
    ensures CheckNews(news) == Tripped(TitleOf(FeedItems(news)[i]))
  {
    ScanFindsFirstHit(Titles(FeedItems(news)), i);
  }

  /** A document that is a bare list has no `data` key, so this breaker never trips on it. */
  lemma ListDocumentNeverTrips(items: seq<J>)
    ensures CheckNews(Some(JArr(items))) == Quiet
  {
  }

  /** Items that are plain strings have the empty title and never trip the breaker. */
  lemma StringItemsNeverTrip(items: seq<J>)
    requires forall j :: 0 <= j < |items| ==> items[j].JStr?
    ensures Scan(Titles(items)) == Quiet
  {
    EmptyTitlesNeverTrip(Titles(items));
  }

  /** An item without a title is passed over: the scan goes on to the next one. */
  lemma UntitledItemSkipped(items: seq<J>)
    requires |items| > 0 && !(items[0].JObj? && "title" in items[0].fields)
    ensures Scan(Titles(items)) == Scan(Titles(items[1..]))
  {
    EmptyTitleNeverMatches();
    assert Titles(items)[1..] == Titles(items[1..]);
  }

  // ----- run_logic -----

  /** `all([price, prev_price, atr is not None])`: a zero price or previous price aborts the run. */
  predicate Usable(q: Quote) {
    q.price != 0.0 && q.prevPrice != 0.0
  }

  /**
   `run_logic`: the breaker first, then the kline guard, then evaluation,
   report and recommendation. An `Error` stands for the exception the
   report raises, which the HTTP handler turns into an error notice.
   */
  function Run(news: Option<J>, kline: KlineResponse, feeds: Feeds): (out: seq<Msg>)
    ensures WellShaped(out)
    ensures CheckNews(news).Tripped? ==> out == [Notice(CheckNews(news).title)]
    ensures CheckNews(news) == Quiet && Kline(kline).None? ==> out == []
    ensures CheckNews(news) == Quiet && Kline(kline).Some? ==>
      var q, m := Kline(kline).value, Collect(feeds);
      && (!Usable(q) ==> out == [])
      && (q.price == 0.0 || q.prevPrice == 0.0 ==> out == [])
      && (q.price != 0.0 && q.prevPrice != 0.0 ==> out != [])
      && (Usable(q) ==> (out == [Error] <==> !Formattable(m)))
      && (Usable(q) && Formattable(m) ==> |out| > 0 && out[0] == Report(q.price, Evaluate(q, m)))
  {
    match CheckNews(news)
    case Tripped(t) => [Notice(t)]
    case Quiet =>
      match Kline(kline)
      case None => []
      case Some(q) => if Usable(q) then Compose(q, Collect(feeds)) else []
  }

  /**
   A recommendation is sent exactly when the breaker stays quiet, a usable
   quote arrives and all six conditions hold on it.
   */
  lemma RecommendsIff(news: Option<J>, kline: KlineResponse, feeds: Feeds)
    ensures Recommends(Run(news, kline, feeds)) <==>
      && CheckNews(news) == Quiet
      && Kline(kline).Some? && Usable(Kline(kline).value)
      && AllHold(Evaluate(Kline(kline).value, Collect(feeds)))
  {
  }

  /** Every recommendation sent has its stop below and its target above a positive entry price. */
  lemma RecommendationBracketsPrice(news: Option<J>, kline: KlineResponse, feeds: Feeds)
    ensures forall r :: r in Run(news, kline, feeds) && r.Recommendation? ==>
      0.0 < r.entry && r.stop < r.entry < r.target
  {
    match CheckNews(news)
    case Tripped(_) =>
    case Quiet =>
      match Kline(kline)
      case None =>
      case Some(q) =>
        if Usable(q) {
          ComposeBracketsPrice(q, Collect(feeds));
        }
  }

  /**
   The run errors only when the report lacks one of its readings; the gate
   is then shut whatever the quote, so the error never swallows a
   recommendation.
   */
  lemma ErrorOnlyWhenGateShut(news: Option<J>, kline: KlineResponse, feeds: Feeds)
    ensures Run(news, kline, feeds) == [Error] ==>
      !Formattable(Collect(feeds)) && forall q :: !AllHold(Evaluate(q, Collect(feeds)))
  {
  }
}
