# X7K9 signal engine in Dafny

This project models the signal-evaluation engine of the X7K9-ALPHA-BTC
script. The engine decides, once per run, whether the moment favours a
manual long entry on BTC-USDT. The repository holds two versions of it:

- `api/run.py` is the HTTP-handler version. It reads JSON through
  `safe_get` and wraps every fetch in try/except.
- `x7k9-signal/api/run.py` is the command-line version. It indexes JSON
  directly, divides the ATR by a fixed 14, and lets the exceptions of the
  candle fetch escape.

Each run follows the same steps:

1. A news circuit breaker runs first. When it trips, the run sends one
   notice and stops.
2. A guard checks the candle data. Price, previous price and the average
   true range (ATR) come from `get_okx_kline`.
3. Six conditions are evaluated over the readings of `get_coinglass_data`.
4. A report is built and sent.
5. When all six conditions hold, a recommendation follows: take profit at
   `price * 1.022` and stop at `price * 0.979`.

Everything is pure. Provider responses are inputs: a `KlineResponse`, a
`Feeds` record of numeric series, and the news document as
`Option<J>`. For the news document, `None` means the request or the JSON
decoding failed. For the candles, `NoResponse` means the request raised
or a 200 response's body was not JSON; a response with any other status
is a `Response` carrying that status, because its body is never decoded.
A run's output is the sequence of messages it hands to the notifier.

Modules:

- `Wrappers` holds `Option` and `Attempt`. `Attempt` is a call that either
  returns or raises an exception nobody catches.
- `Json` holds the JSON value `J`, `safe_get` (`SafeGet`) and an
  independent path resolver, `Lookup`.
- `News` holds the keyword list, Python substring search, the
  title-probe semantics and the first-match scan.
- `Candles` holds the candle response, true range, the sample windows,
  and sums, peaks and means.
- `Indicators` holds the provider series, the readings and the
  liquidation ratio.
- `Gate` holds the six conditions and their conjunction.
- `Advisory` holds the message kinds, the recommendation, and the
  report-plus-recommendation tail that both versions share.
- `ApiRun` models `api/run.py`.
- `ScriptRun` models `x7k9-signal/api/run.py`.
- `Drift` holds lemmas that compare the two versions.

Messages are abstract kinds:

- `Notice(title)` is the breaker notice.
- `Report(price, conditions)` is the evaluation report.
- `Recommendation(entry, target, stop)` is the entry suggestion.
- `Error` means an exception ended the run. In `api/run.py` the HTTP
  handler turns it into an error notice. In the command-line version it
  is a crash.

## Behaviour worth knowing

Some of the code's behaviour is easy to miss on a first reading.

- The report formats `long_short`, `funding_rate`, `holding_change`,
  `liq_ratio` and `mvrv_z` with numeric format specifications. Formatting
  `None` that way raises. So a missing reading does not produce a
  "data unavailable" line. It produces `Error` and no report
  (`Advisory.Compose`). `fear_greed` is formatted without a specification
  and may be missing. `ApiRun.ErrorOnlyWhenGateShut` shows that no
  recommendation is ever lost this way.
- The ATR of `api/run.py` averages rows 1 .. min(14, n-1), the first rows
  of the response. Price and previous price are the closes of the last two
  rows. `ApiRun.AtrIgnoresLaterRows` shows the two windows are
  independent.
- The ATR of the command-line version divides by 14 whatever the sample
  count. A candle response with fewer than two rows raises there, instead
  of counting as missing data.
- The command-line version computes the holding change for a negative
  previous value. Only zero is rejected, through ZeroDivisionError.
- The command-line kline guard rejects a zero ATR and does not check the
  previous price.
- The two breakers read differently shaped news documents. `api/run.py`
  scans the list under the document's `data` key and stays quiet on a bare
  list. The command-line version scans a bare list, and stays quiet on a
  dict because iterating one yields string keys. So on one and the same
  document at most one of them can trip (`Drift.NeverBothTrip`).
- The breaker stops scanning, without tripping, at a title of null, a
  number or a bool, because `kw in title` raises on those. This holds in
  both versions. The command-line version also stops at any item that is
  not a dict with a `title` key, because `item['title']` raises there.
  `api/run.py` reads such an item's title as "" and carries on.

## Model

| member | source | states |
|---|---|---|
| Json.SafeGet | api/run.py:24-33 | An empty key path returns the input unchanged. |
| Json.Step | api/run.py:27-32 | A dict step succeeds exactly when the key is present and yields that key's value. A list step succeeds exactly for an index in 0 .. len-1 and yields that element. An integer key into a dict, a string key into a list, and any step into a scalar fail. |
| Json.SafeGetFollowsPath | api/run.py:24-33 | `safe_get` returns the value the whole path leads to, or the default exactly when some step fails. This is proved against `Lookup`, which resolves the path from its last key. |
| Json.LookupFailureIsFinal | api/run.py:31-32 | Once a prefix of the path fails, no longer path succeeds. |
| Candles.TrueRange | api/run.py:50-54 | The true range is the least value bounding `high-low`, `abs(high-prev_close)` and `abs(low-prev_close)`, and it is never negative. |
| Candles.Samples | api/run.py:48-55 | The sample list has one entry per row in the range, in row order, each measured against the previous row's close. |
| ApiRun.Window | api/run.py:49-56 | The averaged window holds exactly min(14, n-1) samples, at least one. Sample j is the true range of row j+1 against row j's close, so the window covers rows 1 .. min(14, n-1). All samples are non-negative. |
| ApiRun.Atr | api/run.py:56 | The ATR is the mean of the window's samples and is non-negative. |
| ApiRun.AtrAtMostLargestSample | api/run.py:56 | The ATR is at most any bound on all its samples, so at most the largest sample. |
| ApiRun.AtrAtMostPeak | api/run.py:56 | The ATR is at most the largest sample of its window. |
| ApiRun.Kline | api/run.py:36-60 | A quote exists exactly for a 200 response with at least two rows. Price and previous price are the closes of the last two rows, and the ATR is non-negative. |
| ApiRun.AtrIgnoresLaterRows | api/run.py:44-57 | Once 15 rows exist, appending rows never changes the ATR. |
| ApiRun.HoldingChange | api/run.py:94-98 | The holding change exists exactly when there are two rows and `prev > 0`. Then it is the relative drop `(prev-curr)/prev`, positive exactly when `curr < prev`. |
| ApiRun.OutflowMeansOnePercentDrop | api/run.py:94-98 | Condition 4 holds exactly when holdings fell by at least 1% of a positive previous value. |
| Indicators.LiqRatio | api/run.py:107-110 | The ratio is the short share of a positive total, and 0.5 otherwise. With non-negative volumes it lies in [0, 1]. |
| Indicators.LatestLiqRatio | api/run.py:104-110 | The ratio exists exactly when there is a liquidation row, and comes from the last row. |
| Gate.SqueezeMeansShortDominance | api/run.py:169 | Condition 5 holds exactly when the total is positive and shorts exceed 55% of it. The 0.5 default never passes. |
| ApiRun.Collect | api/run.py:63-130 | Each reading is available exactly when its own series is. Long/short, fear/greed and MVRV come from the last row of their series, the funding rate from the first row, and the liquidation ratio from the last liquidation row. The sentiment readings are independent of each other. |
| News.OccursIff | api/run.py:140 | `kw in title` holds exactly when the keyword occurs at some position of the title. |
| News.EmptyTitleNeverMatches | api/run.py:139-140 | The empty title, the default for an untitled item, matches no keyword. |
| News.KeywordSurvivesContext | api/run.py:140 | A matching title still matches with more text around it. |
| News.ProbeTitle | api/run.py:140 | `kw in title` for the seven keywords. A str title hits exactly when some keyword is a substring. A list title hits exactly when some element is a str equal to a keyword. A dict title hits exactly when some key is a keyword. The probe raises exactly on null, bool and number titles. |
| News.Scan | api/run.py:138-144 | When the scan trips, it reports the first title that matches, and every earlier title was readable and matched nothing. |
| News.ScanFindsFirstHit | api/run.py:138-141 | The first matching title, after titles that matched nothing, is the one reported. |
| News.ScanQuietIff | api/run.py:138-144 | The breaker stays quiet exactly when no title is a first match. |
| News.EmptyTitlesNeverTrip | api/run.py:138-144 | A feed whose every title is the empty string never trips. |
| ApiRun.TitleOf | api/run.py:139 | An item's title is its `title` entry, or "" when the item is not a dict with that key. |
| ApiRun.FeedItems | api/run.py:138 | The scanned items are the list under the document's `data` key when the document is a dict holding a list there, and none otherwise. A str or dict under `data` would yield only strings, which never trip (`ApiRun.StringItemsNeverTrip`), and a scalar raises inside the `try`. |
| ApiRun.CheckNews | api/run.py:133-144 | A failed fetch never trips. A trip reports the first item title that matches. |
| ApiRun.FirstMatchingTitleTrips | api/run.py:138-141 | The first matching item title is the one the breaker reports. |
| ApiRun.StringItemsNeverTrip | api/run.py:138-140 | Items that are plain strings never trip, so iterating a str or dict under `data` never trips. |
| ApiRun.ListDocumentNeverTrips | api/run.py:138 | A document that is a bare list has no `data` entry, so the breaker never trips on it. |
| ApiRun.UntitledItemSkipped | api/run.py:139-140 | An item without a title is passed over, and the scan continues with the next item. |
| Gate.Evaluate | api/run.py:165-175 | Each condition holds exactly when its own test passes: rising price with ATR under 2% of the price; long/short in [0.8, 1.3]; funding in [-0.0003, 0.0005]; holding change at least 0.01; liquidation ratio above 0.55; fear/greed in [20, 80] and MVRV in [-2, 3]. An unavailable reading fails its test, so the gate opens only when every reading is available. |
| Gate.GateIsConjunction | api/run.py:175 | `all_cond` holds exactly when all six tests pass. |
| Gate.BoundaryValues | api/run.py:166-173 | Bounds 0.8, 1.3, -0.0003, 0.0005, 0.01, 20, 80, -2 and 3 are inclusive. The 0.55 bound is strict. |
| Gate.BandsAreIntervals | api/run.py:166-169 | The values each numeric test accepts form an interval, upward-closed for conditions 4 and 5. |
| Gate.ScenarioAllMet | api/run.py:165-175 | The reference scenario with price 50500, previous price 50000 and ATR 500, with neutral readings, opens the gate. The same inputs with a 0.001 funding rate keep it shut. |
| Advisory.Recommend | api/run.py:195-199 | The target is 2.2% above the entry and the stop 2.1% below. For a positive entry, stop < entry < target. |
| Advisory.Formattable | api/run.py:185-189 | The report can be built exactly when long/short, funding rate, holding change, liquidation ratio and MVRV Z-score are all present. Those five are formatted with numeric specifications, which raise on `None`; fear/greed is not. |
| Advisory.RecommendAt50000 | api/run.py:196-197 | An entry of 50000 gives target 51100 and stop 48950. |
| Advisory.Compose | api/run.py:175-199 | The tail gives a lone error exactly when one of long/short, funding rate, holding change, liquidation ratio or MVRV Z-score is missing. Otherwise the report comes first, and a recommendation follows exactly when all six conditions hold. |
| Advisory.ComposeBracketsPrice | api/run.py:165-199 | With a non-negative ATR, every recommendation the tail sends has a positive entry, with the stop below it and the target above it. |
| ApiRun.Usable | api/run.py:159-161 | `all([price, prev_price, atr is not None])` passes exactly when neither the price nor the previous price is zero; the ATR is always present once a quote exists. |
| ApiRun.Run | api/run.py:147-199 | Every output is well shaped. A tripped breaker gives exactly one notice and nothing else. No quote gives no message. With a quote, a zero price or previous price gives no message, and non-zero ones always give a message. The run then errors exactly when a formatted reading is missing, and otherwise starts with the report of the price and the six conditions. |
| ApiRun.RecommendsIff | api/run.py:151-199 | A recommendation is sent exactly when the breaker is quiet, both prices are non-zero, and all six conditions hold. |
| ApiRun.RecommendationBracketsPrice | api/run.py:195-199 | Every recommendation sent has a positive entry, with the stop below it and the target above it. |
| ApiRun.ErrorOnlyWhenGateShut | api/run.py:185-189 | The run errors only when a formatted reading is missing. The gate is then shut for every quote. |
| ScriptRun.Window | x7k9-signal/api/run.py:36-40 | The window keeps min(14, n-1) samples, or none with fewer than two rows. They are the true ranges of the last rows, each against the close of the row before it. All are non-negative. |
| ScriptRun.Atr | x7k9-signal/api/run.py:40 | The ATR is the window's total over 14, whatever the sample count, and is non-negative. |
| ScriptRun.AtrAtMostLargestSample | x7k9-signal/api/run.py:40 | The ATR is at most any non-negative bound on all its samples. |
| ScriptRun.AtrAtMostPeak | x7k9-signal/api/run.py:40 | With at least two rows, the ATR is at most the largest sample of its window. |
| ScriptRun.Kline | x7k9-signal/api/run.py:27-42 | A failed request, or a 200 response with fewer than two rows, raises. A non-200 status gives no quote. Prices are the last two closes. |
| ScriptRun.HoldingChange | x7k9-signal/api/run.py:64-69 | The holding change exists exactly when there are two rows and `prev != 0`, and is then the relative drop. |
| ScriptRun.Collect | x7k9-signal/api/run.py:44-98 | Fear/greed and MVRV Z-score are both available or both missing, and need both series. The other readings each need only their own series. Long/short, fear/greed and MVRV come from the last row of their series, the funding rate from the first row, and the liquidation ratio from the last liquidation row. |
| ScriptRun.EitherSentimentFeedShutsSentiment | x7k9-signal/api/run.py:82-89 | A missing fear/greed series or a missing MVRV series makes condition 6 false. |
| ScriptRun.TitleOf | x7k9-signal/api/run.py:106 | `item['title']` succeeds exactly on a dict holding a `title` key, and then yields that key's value. |
| ScriptRun.FeedItems | x7k9-signal/api/run.py:105 | The scanned items are the document itself when it is a list, and none otherwise. |
| ScriptRun.CheckNews | x7k9-signal/api/run.py:100-110 | A failed fetch never trips. A trip reports the first top-level item title that matches. |
| ScriptRun.FirstMatchingTitleTrips | x7k9-signal/api/run.py:105-107 | The first matching title, after readable titles that matched nothing, is the one reported. |
| ScriptRun.UntitledItemEndsScan | x7k9-signal/api/run.py:105-109 | No item after an untitled one can be the reported match. |
| ScriptRun.DictDocumentNeverTrips | x7k9-signal/api/run.py:105-106 | A document that is a dict is iterated over its string keys, and `key['title']` raises, so the breaker never trips on it. |
| ScriptRun.Usable | x7k9-signal/api/run.py:125-127 | `not price or not atr` aborts exactly when the price or the ATR is zero; the previous price is not checked. |
| ScriptRun.Run | x7k9-signal/api/run.py:112-168 | Every output is well shaped. A tripped breaker gives exactly one notice. A raising candle fetch gives a lone error. A non-200 candle response gives no message. With a quote, a zero price or ATR gives no message, and non-zero ones always give a message. The run then errors exactly when a formatted reading is missing, and otherwise starts with the report of the price and the six conditions. |
| ScriptRun.FlatCandlesSilenceRun | x7k9-signal/api/run.py:124-127 | Candles that all sit at one price give a zero ATR, and the run sends nothing. |
| ScriptRun.RecommendsIff | x7k9-signal/api/run.py:116-168 | A recommendation is sent exactly when the breaker is quiet, a quote with non-zero price and ATR arrives, and all six conditions hold. |
| ScriptRun.RecommendationBracketsPrice | x7k9-signal/api/run.py:164-168 | Every recommendation sent has a positive entry, with the stop below it and the target above it. |
| Drift.SameShortWindow | x7k9-signal/api/run.py:36-40 | With 2 to 15 rows both versions draw the same samples. |
| Drift.AtrShortHistory | x7k9-signal/api/run.py:40 | With 2 to 15 rows the command-line ATR, which divides by 14 instead of the sample count, is never larger than the HTTP version's. |
| Drift.ShortMeanOrder | x7k9-signal/api/run.py:40 | For at most fourteen non-negative samples, their total over 14 is at most their mean. |
| Drift.AtrFullHistory | x7k9-signal/api/run.py:36-40 | From 15 rows on, the command-line ATR is the mean of the last 14 samples. The HTTP version keeps rows 1 .. 14. |
| Drift.HoldingChangeGuards | x7k9-signal/api/run.py:64-69 | Both versions agree for a positive previous value and both reject zero. Only the command-line version yields a value for a negative one. |
| Drift.CollectAgreement | x7k9-signal/api/run.py:82-89 | Both versions read the same values when the previous holdings are positive and both sentiment series are present. Without an MVRV series, only the HTTP version reads fear/greed. |
| Drift.KlineGuards | x7k9-signal/api/run.py:125-127 | For every quote, both guards abort on a zero price. With a non-zero price and ATR, only the HTTP version depends on the previous price, aborting exactly when it is zero. With non-zero prices, only the command-line version depends on the ATR, aborting exactly when it is zero. A negative price passes both. |
| Drift.BreakersAgreeOnTitledFeeds | x7k9-signal/api/run.py:104-107 | For items that all carry titles, the HTTP breaker on the document `{"data": items}` gives the same verdict as the command-line breaker on the bare list `items`. These are two differently shaped documents. |
| Drift.NeverBothTrip | x7k9-signal/api/run.py:104-106 | On one and the same document at most one of the two breakers trips. A dict document silences the command-line breaker, and a list document silences the HTTP breaker. |
| Drift.UntitledFirstItem | x7k9-signal/api/run.py:105-108 | After an untitled first item, the HTTP version still trips on a later match. The command-line version reports nothing. |

## Left out

- HTTP requests and JSON decoding are not modelled. The decoded
  responses are inputs, and the status code is a field of the candle
  response. So are Telegram delivery
  (`send_telegram`), the environment-variable configuration, the Vercel
  `handler` class, `datetime.now` and every `print`. The model records the
  messages a run hands to `send_telegram`, whether or not delivery is
  configured.
- Provider coercions are not modelled. These are the `float()`/`int()`
  conversions, the ragged-row filters `len(d) > k`, and the `safe_get`
  defaults for missing row fields (0, 1, 50). Rows are taken as well-formed
  numbers. An empty series stands for a failed fetch and an empty `data`
  list alike, and both versions treat those two identically.
- Report text is not modelled: the f-string contents, number formatting,
  emoji and timestamps. A report is its price and six condition results.
- All quantities are `real`, not IEEE-754 doubles. So behaviour exactly at
  the decimal thresholds (0.02, 0.0003, 0.55, ...) may differ from Python's
  float comparisons. For the same reason the target and stop are exact
  products.
- Python's `bool` being an `int` is not modelled, so a boolean key or
  title is treated like any other non-string value. Dict iteration order is
  not modelled either. The model only needs the fact that iterating a dict
  yields string keys, and that never trips either breaker.
- Idempotence of evaluation holds trivially, because every member is a
  pure function.
