/**
 The keyword test at the heart of `check_news_alert`, shared by both
 versions of the script: Python substring search, the fixed keyword list,
 and the first-match scan over the feed's titles.
 */
module News {
  import opened Wrappers
  import opened Json

  /** Asset transfers in and out, policy, the two named exchanges, tax cuts, subsidies. */
  const Keywords: seq<string> := ["转入", "转出", "政策", "OKX", "Binance", "减税", "补贴"]

  /** `p` sits in `s` starting at position `i`. */
  ghost predicate OccursAt(p: string, s: string, i: int) {
    0 <= i && i + |p| <= |s| && s[i..i + |p|] == p
  }

  /** Python's `p in s` for two str values: `p` is a substring of `s`. */
  function Occurs(p: string, s: string): bool
    decreases |s|
  {
    if |s| < |p| then false
    else if s[..|p|] == p then true
    else Occurs(p, s[1..])
  }

  lemma {:induction false} OccursIff(p: string, s: string)
    ensures Occurs(p, s) <==> exists i :: OccursAt(p, s, i)
    decreases |s|
  {
    if |s| < |p| {
      forall i | OccursAt(p, s, i) ensures false { }
    } else if s[..|p|] == p {
      assert OccursAt(p, s, 0);
    } else {
      OccursIff(p, s[1..]);
      if Occurs(p, s[1..]) {
        var i :| OccursAt(p, s[1..], i);
        assert s[1..][i..i + |p|] == s[i + 1..i + 1 + |p|];
        assert OccursAt(p, s, i + 1);
      }
      forall i | OccursAt(p, s, i) ensures Occurs(p, s[1..]) {
        assert i != 0;
        assert s[1..][i - 1..i - 1 + |p|] == s[i..i + |p|];
        assert OccursAt(p, s[1..], i - 1);
      }
    }
  }

  /** Some keyword is a substring of the title: `any(kw in title for kw in keywords)`. */
  predicate HasKeyword(title: string) {
    exists k | 0 <= k < |Keywords| :: Occurs(Keywords[k], title)
  }

  /** The empty title, used for an item without one, never matches. */
  lemma EmptyTitleNeverMatches()
    ensures !HasKeyword("")
  {
    forall k | 0 <= k < |Keywords| ensures !Occurs(Keywords[k], "") {
      assert |Keywords[k]| > 0;
    }
  }

  /** Surrounding a matching title with more text keeps it matching. */
  lemma KeywordSurvivesContext(before: string, title: string, after: string)
    requires HasKeyword(title)
    ensures HasKeyword(before + title + after)
  {
    var k :| 0 <= k < |Keywords| && Occurs(Keywords[k], title);
    var p := Keywords[k];
    var s := before + title + after;
    OccursIff(p, title);
    var i :| OccursAt(p, title, i);
    assert s[|before| + i..|before| + i + |p|] == title[i..i + |p|];
    assert OccursAt(p, s, |before| + i);
    OccursIff(p, s);
  }

  /** What testing the keywords against one title does. */
  datatype Probe = Hit | Miss | Fault

  /**
   `any(kw in title for kw in keywords)` for whatever JSON value the title
   turned out to be: substring search on a str, element equality on a
   list, key membership on a dict, and a TypeError (Fault) on anything else.
   */
  function ProbeTitle(title: J): (p: Probe)
    ensures title.JStr? ==> (p == Hit <==> HasKeyword(title.s)) && p != Fault
    ensures title.JArr? ==>
      (p == Hit <==> exists j :: 0 <= j < |title.items| && title.items[j].JStr? && title.items[j].s in Keywords)
    ensures title.JObj? ==> (p == Hit <==> exists key :: key in title.fields && key in Keywords)
    ensures p == Fault <==> title.JNull? || title.JBool? || title.JNum?
  {
    match title
    case JStr(s) => if HasKeyword(s) then Hit else Miss
    case JArr(items) => if exists k | 0 <= k < |Keywords| :: JStr(Keywords[k]) in items then Hit else Miss
    case JObj(fields) => if exists k | 0 <= k < |Keywords| :: Keywords[k] in fields then Hit else Miss
    case _ => Fault
  }

  /** The breaker's verdict: `(False, "")` or `(True, title)`. */
  datatype Alert = Quiet | Tripped(title: J)

  /**
   Title `i` is the first to match, and every title before it could be
   read and matched nothing.
   */
  predicate FirstHit(titles: seq<Option<J>>, i: int) {
    && 0 <= i < |titles|
    && titles[i].Some?
    && ProbeTitle(titles[i].value) == Hit
    && forall j :: 0 <= j < i ==> titles[j].Some? && ProbeTitle(titles[j].value) == Miss
  }

  /**
   The scan loop of `check_news_alert` over the feed's titles in order
   (None where reading an item's title raised). The first matching title
   trips the breaker; any exception ends the scan, and the surrounding
   `except` turns it into "not triggered".
   */
  function Scan(titles: seq<Option<J>>): (a: Alert)
    ensures a.Tripped? ==> exists i :: FirstHit(titles, i) && a.title == titles[i].value
    decreases |titles|
  {
    if |titles| == 0 then Quiet
    else
      match titles[0]
      case None => Quiet
      case Some(t) =>
        match ProbeTitle(t)
        case Hit => assert FirstHit(titles, 0); Tripped(t)
        case Fault => Quiet
        case Miss =>
          var rest := Scan(titles[1..]);
          if rest.Tripped? then
            var i :| FirstHit(titles[1..], i) && rest.title == titles[1..][i].value;
            assert FirstHit(titles, i + 1);
            rest
          else rest
  }

  /** Conversely, the first matching title is the one the scan reports. */
  lemma {:induction false} ScanFindsFirstHit(titles: seq<Option<J>>, i: int)
    requires FirstHit(titles, i)
    ensures Scan(titles) == Tripped(titles[i].value)
    decreases i
  {
    if i > 0 {
      assert FirstHit(titles[1..], i - 1);
      ScanFindsFirstHit(titles[1..], i - 1);
    }
  }

  /** The breaker stays quiet exactly when no title is a first hit. */
  lemma ScanQuietIff(titles: seq<Option<J>>)
    ensures Scan(titles) == Quiet <==> forall i :: !FirstHit(titles, i)
  {
    if !(forall i :: !FirstHit(titles, i)) {
      var i :| FirstHit(titles, i);
      ScanFindsFirstHit(titles, i);
    }
  }

  /**
   Titles that are all empty strings never trip the breaker; this is what
   the HTTP version reads from items that are plain strings.
   */
  lemma {:induction false} EmptyTitlesNeverTrip(titles: seq<Option<J>>)
    requires forall j :: 0 <= j < |titles| ==> titles[j] == Some(JStr(""))
    ensures Scan(titles) == Quiet
    decreases |titles|
  {
    EmptyTitleNeverMatches();
    if |titles| > 0 {
      EmptyTitlesNeverTrip(titles[1..]);
    }
  }
}
