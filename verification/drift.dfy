/**
 Where the two versions of the script agree and where they drift apart:
 the ATR divisor and window, the holding-change guard, the grouping of the
 sentiment readings, the kline guard and the shape of the news feed.
 */
module Drift {
  import opened Wrappers
  import opened Json
  import opened News
  import opened Candles
  import opened Indicators
  import opened Gate
  import ApiRun
  import ScriptRun

  /**
   With at most fifteen rows both versions draw the same samples, but the
   command-line version divides their total by 14 instead of by their
   count, so its ATR is the other's scaled by (n-1)/14 and never larger.
   */
  lemma AtrShortHistory(rows: seq<Candle>)
    requires 2 <= |rows| <= 15
    ensures ScriptRun.Atr(rows) <= ApiRun.Atr(rows)
  {
    SameShortWindow(rows);
    ShortMeanOrder(ApiRun.Window(rows));
  }

  /** At most fourteen non-negative values: their total over 14 is at most their mean. */
  lemma ShortMeanOrder(w: seq<real>)
    requires 0 < |w| <= 14 && AllAtLeast(w, 0.0)
    ensures Sum(w) / ScriptRun.AtrPeriod <= Mean(w)
  {
    SumAtLeast(w, 0.0);
    DivisorOrder(Sum(w), |w| as real, ScriptRun.AtrPeriod);
  }

  /** With at most fifteen rows both versions draw the same samples. */
  lemma SameShortWindow(rows: seq<Candle>)
    requires 2 <= |rows| <= 15
    ensures ScriptRun.Window(rows) == ApiRun.Window(rows)
  {
    assert Max(1, |rows| - 14) == 1 && Min(15, |rows|) == |rows|;
  }

  /** A non-negative total divided by a larger divisor is no larger. */
  lemma DivisorOrder(total: real, n: real, d: real)
    requires 0.0 < n <= d && 0.0 <= total
    ensures total / d <= total / n
  {
    assert total / d * d == total;
    assert total / n * n == total;
    assert total / d * n <= total / d * d;
  }

  /**
   With fifteen rows or more the command-line version averages the last
   fourteen samples, while the HTTP version keeps averaging rows 1 .. 14.
   */
  lemma AtrFullHistory(rows: seq<Candle>)
    requires |rows| >= 15
    ensures ScriptRun.Window(rows) == Samples(rows, |rows| - 14, |rows|)
    ensures ApiRun.Window(rows) == Samples(rows, 1, 15)
    ensures ScriptRun.Atr(rows) == Mean(ScriptRun.Window(rows))
  {
    var w := ScriptRun.Window(rows);
    assert |w| == 14;
  }

  /**
   The HTTP version keeps the holding change only for a positive previous
   value; the command-line version only rejects zero, so a negative
   previous value gives it a reading the other discards.
   */
  lemma HoldingChangeGuards(holdings: seq<real>)
    requires |holdings| >= 2
    ensures holdings[|holdings| - 2] > 0.0 ==> ApiRun.HoldingChange(holdings) == ScriptRun.HoldingChange(holdings)
    ensures holdings[|holdings| - 2] == 0.0 ==> ApiRun.HoldingChange(holdings).None? && ScriptRun.HoldingChange(holdings).None?
    ensures holdings[|holdings| - 2] < 0.0 ==> ApiRun.HoldingChange(holdings).None? && ScriptRun.HoldingChange(holdings).Some?
  {
  }

  /**
   Both versions read the same values once the previous holdings are
   positive and both sentiment series are present; without an MVRV series
   only the HTTP version still reads the fear/greed index.
   */
  lemma CollectAgreement(f: Feeds)
    ensures ApiRun.Collect(f).longShort == ScriptRun.Collect(f).longShort
    ensures ApiRun.Collect(f).fundingRate == ScriptRun.Collect(f).fundingRate
    ensures ApiRun.Collect(f).liqRatio == ScriptRun.Collect(f).liqRatio
    ensures (|f.holdings| < 2 || f.holdings[|f.holdings| - 2] > 0.0) && |f.fearGreed| > 0 && |f.mvrvZ| > 0
      ==> ApiRun.Collect(f) == ScriptRun.Collect(f)
    ensures |f.fearGreed| > 0 && |f.mvrvZ| == 0
      ==> ApiRun.Collect(f).fearGreed.Some? && ScriptRun.Collect(f).fearGreed.None?
  {
  }

  /**
   Both guards abort on a zero price. Beyond that, only the HTTP version
   looks at the previous price and only the command-line version at the ATR.
   Neither rejects a negative price.
   */
  lemma KlineGuards(q: Quote)
    ensures q.price == 0.0 ==> !ApiRun.Usable(q) && !ScriptRun.Usable(q)
    ensures q.price != 0.0 && q.atr != 0.0 ==> (ApiRun.Usable(q) <==> q.prevPrice != 0.0) && ScriptRun.Usable(q)
    ensures q.price != 0.0 && q.prevPrice != 0.0 ==> ApiRun.Usable(q) && (ScriptRun.Usable(q) <==> q.atr != 0.0)
  {
  }

  /** Every item is a dict with a title. */
  predicate AllTitled(items: seq<J>) {
    forall j :: 0 <= j < |items| ==> items[j].JObj? && "title" in items[j].fields
  }

  /**
   On a feed whose items all carry titles the two breakers agree, the HTTP
   version reading the items under `data` and the command-line version
   reading them at the top level.
   */
  lemma BreakersAgreeOnTitledFeeds(items: seq<J>)
    requires AllTitled(items)
    ensures ApiRun.CheckNews(Some(JObj(map["data" := JArr(items)]))) == ScriptRun.CheckNews(Some(JArr(items)))
  {
    var doc := JObj(map["data" := JArr(items)]);
    assert ApiRun.FeedItems(Some(doc)) == items;
    assert ApiRun.Titles(items) == ScriptRun.Titles(items);
  }

  /**
   The two breakers expect differently shaped documents: a dict with a
   `data` list, or a bare list. So on one and the same document at most one
   of them can trip.
   */
  lemma NeverBothTrip(doc: J)
    ensures !(ApiRun.CheckNews(Some(doc)).Tripped? && ScriptRun.CheckNews(Some(doc)).Tripped?)
  {
    match doc
    case JArr(items) => ApiRun.ListDocumentNeverTrips(items);
    case JObj(fields) => ScriptRun.DictDocumentNeverTrips(fields);
    case _ =>
  }

  /**
   An untitled first item: the HTTP version reads it as the empty title
   and goes on to the matching item after it, the command-line version
   stops at the KeyError and reports nothing.
   */
  lemma UntitledFirstItem(title: string)
    requires HasKeyword(title)
    ensures var items := [JObj(map[]), JObj(map["title" := JStr(title)])];
      && ApiRun.CheckNews(Some(JObj(map["data" := JArr(items)]))) == Tripped(JStr(title))
      && ScriptRun.CheckNews(Some(JArr(items))) == Quiet
  {
    var items := [JObj(map[]), JObj(map["title" := JStr(title)])];
    var doc := JObj(map["data" := JArr(items)]);
    assert ApiRun.FeedItems(Some(doc)) == items;
    EmptyTitleNeverMatches();
    assert FirstHit(ApiRun.Titles(items), 1);
    ApiRun.FirstMatchingTitleTrips(Some(doc), 1);
  }
}
