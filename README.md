# RecentIPO analysis, modelled in Dafny

This project models the analysis of recently listed stocks in
`stock_market/analysis/ipo.py`. `RecentIPO` fetches a daily price series
(Open, High, Low, Close bars) for every ticker of a recent-IPO listing, and
skips tickers the data provider has no data for (`RemoteDataError`). It keeps
the resulting dictionary in `_price_history` once built. From that dictionary
it derives one statistics row per ticker:

- the overall percent change from the first Open to the last Close;
- the optimal sell day (OSD), the first trading day on which the High is greatest;
- the percent gain from the first Open to that High;
- the `OSD_Ongoing` flag.

Modules, one per component of the file:

- `Wrappers` (`wrappers.dfy`): `Option` and `Result`.
- `Prices` (`prices.dfy`): bars, series, and the errors that end an access.
- `Percent` (`percent.dfy`): `_percent_change`.
- `Metrics` (`metrics.dfy`): `max`, `list.index`, the sell day, `OSD_Ongoing` and the statistics row.
- `HistoryCache` (`history_cache.dfy`): the fetch-and-skip walk that `price_history` performs, as a specification function and as a loop.
- `SummaryTable` (`summary_table.dfy`): the fold of rows that `summary` performs, as a specification function and as a loop.
- `Ipo` (`ipo.dfy`): the `RecentIPO` class, with its cached fields and its two accessors.

Modelling choices:

- Prices and percentages are `real`.
- A price series is a `seq<Bar>`, and the table is a `seq<Row>`. A row's position in that sequence is its dense index from 0.
- Python's insertion-ordered dict is a `History`: its keys in insertion order plus a map.
- The data provider is a parameter `fetch: (nat, Ticker) -> FetchOutcome`. It gives the answer to the request made at each position of the walk: a series, `RemoteDataError`, or another error. The answer depends on the position because every request is a separate network query. This is what lets the model state what happens to a ticker listed twice.
- The recent-IPO listing is the `candidates` sequence handed to the constructor.
- The requests made are recorded in a ghost field, `fetchLog`.

## Model

| member | source | states |
|---|---|---|
| `Percent.PercentChange` | stock_market/analysis/ipo.py:99-128 | `_percent_change`, for a nonzero start: the result times the start is the difference end − start scaled by 100 (percent) or 1 (decimal) |
| `Percent.PercentChangeScaled` | stock_market/analysis/ipo.py:123-128 | for a nonzero start, the result times the start is (end − start) × (100 or 1); it is 0 exactly when end = start; from a positive start it is positive exactly when the value rose |
| `Percent.PercentIsHundredTimesDecimal` | stock_market/analysis/ipo.py:123-126 | the percent form is exactly 100 times the decimal form |
| `Percent.ApplyPercentChange` | stock_market/analysis/ipo.py:126 | applying the computed percent change to the start gives back the end value |
| `Percent.PercentChangeOfApplied` | stock_market/analysis/ipo.py:126 | measuring the change to a start raised by p percent gives back p |
| `Metrics.Max` | stock_market/analysis/ipo.py:49 | `max` of a non-empty list is one of its elements and no element exceeds it |
| `Metrics.IndexOf` | stock_market/analysis/ipo.py:49 | `list.index` returns a valid position holding the value, with no earlier occurrence |
| `Metrics.OptimalSellDay` | stock_market/analysis/ipo.py:48-49 | for a non-empty High series the OSD is a valid index holding the maximum, and every earlier High is strictly smaller |
| `Metrics.OptimalSellDayUnique` | stock_market/analysis/ipo.py:49 | any index that holds the maximum with all earlier Highs strictly smaller is the OSD |
| `Metrics.OsdOngoing` | stock_market/analysis/ipo.py:62-64 | `OSD_Ongoing` is true for every series length and sell day, whatever `OSD_THRESH` is |
| `Prices.Highs` | stock_market/analysis/ipo.py:48 | `list(ticker_data["High"])` has one element per bar, the High of that bar, in order |
| `Metrics.Stats` | stock_market/analysis/ipo.py:44-65 | an empty series fails with EmptySeries, a zero first Open fails with ZeroBaseline, and a row is produced exactly otherwise; the row names its ticker |
| `Metrics.RowOf` | stock_market/analysis/ipo.py:45-65 | the `ticker_stats` dict of a non-empty series with a nonzero first Open names its ticker, its OSD is a day holding the greatest High, and it is flagged ongoing |
| `Metrics.StatsRow` | stock_market/analysis/ipo.py:44-65 | a produced row names its ticker; its OSD is the first index of the greatest High; Pct_Overall_Change × Open[0] = (Close[last] − Open[0]) × 100; OSD_Max_Pct_Gain × Open[0] = (High[OSD] − Open[0]) × 100; OSD_Ongoing holds |
| `Metrics.DescribesUnique` | stock_market/analysis/ipo.py:44-65 | any row with those properties is the row the source computes, so they determine the row completely |
| `Metrics.SingleBarStats` | stock_market/analysis/ipo.py:44-65 | a one-bar series has OSD 0, and both changes are measured inside that bar |
| `HistoryCache.Insert` | stock_market/analysis/ipo.py:87-89 | dict assignment maps the ticker to the new series; a new key goes last, an existing key keeps its place; keys stay distinct and match the entries |
| `HistoryCache.Walk` | stock_market/analysis/ipo.py:83-91 | the walk over the candidates keeps the dictionary well formed |
| `HistoryCache.Build` | stock_market/analysis/ipo.py:79-93 | a built dictionary has distinct keys, exactly the map's keys, in insertion order |
| `HistoryCache.Attempts` | stock_market/analysis/ipo.py:83-91 | the position after the last `get_ticker` call the loop makes: every request before that one returned a series or `RemoteDataError`, and the walk stops only at the end of the listing or right after the first other error |
| `HistoryCache.WalkEntry` | stock_market/analysis/ipo.py:83-91 | after the walk, a ticker is present exactly when it was before or a later request for it succeeded, and it holds the series of its last successful request (or its old series) |
| `HistoryCache.WalkFails` | stock_market/analysis/ipo.py:85-91 | the walk fails exactly when some request raises an error other than RemoteDataError, and it reports the first such ticker |
| `HistoryCache.AttemptsOnSuccess` | stock_market/analysis/ipo.py:83-89 | a walk that ends with a dictionary has requested every candidate |
| `HistoryCache.BuildKeys` | stock_market/analysis/ipo.py:83-93 | the keys of the built dictionary are exactly the candidates for which some request returned a series; tickers that only failed never appear |
| `HistoryCache.BuildValues` | stock_market/analysis/ipo.py:87-91 | each key maps to the series of its last successful request: a later success overwrites, and a later RemoteDataError leaves the entry |
| `HistoryCache.CollectHistory` | stock_market/analysis/ipo.py:79-91 | the loop returns the built dictionary (or the first upstream error); it requests the candidates in order, up to and including the one that failed |
| `SummaryTable.RowsFrom` | stock_market/analysis/ipo.py:43-68 | the fold over the keys from position i: when it completes it has one row per remaining key, and its first row is the statistics row of key i |
| `SummaryTable.Table` | stock_market/analysis/ipo.py:43-70 | the whole fold: a computed table has one row per dictionary entry |
| `SummaryTable.RowsFromOk` | stock_market/analysis/ipo.py:43-68 | the fold yields rows exactly when every remaining key's statistics can be computed |
| `SummaryTable.RowsFromAt` | stock_market/analysis/ipo.py:43-68 | a computed fold has one row per remaining key, each the statistics row of its key, in key order |
| `SummaryTable.RowsFromTickers` | stock_market/analysis/ipo.py:43-68 | each row of a computed fold names the key it was computed for |
| `SummaryTable.RowsFromFirstError` | stock_market/analysis/ipo.py:43-68 | a failing fold reports the error of the first key whose statistics fail |
| `SummaryTable.TableOk` | stock_market/analysis/ipo.py:43-70 | the table is computed exactly when every cached series is non-empty with a nonzero first Open |
| `SummaryTable.TableFirstError` | stock_market/analysis/ipo.py:43-70 | a failing table reports the first key, in key order, whose statistics fail |
| `SummaryTable.TableTickers` | stock_market/analysis/ipo.py:43-70 | a computed table has exactly one row per dictionary entry, and row i names key i (dense re-index from 0) |
| `SummaryTable.TableTickersIn` | stock_market/analysis/ipo.py:43-70 | every row is for a ticker of the dictionary |
| `SummaryTable.TableRowPerTicker` | stock_market/analysis/ipo.py:43-70 | every ticker of the dictionary has exactly one row |
| `SummaryTable.TableRowsDescribe` | stock_market/analysis/ipo.py:43-70 | every row has the properties of its ticker's statistics row (OSD, overall change, peak gain, flag) |
| `SummaryTable.AggregateRows` | stock_market/analysis/ipo.py:40-70 | the loop over the keys returns the table, or the error of the first ticker whose row fails |
| `Ipo.HistoryFrom` | stock_market/analysis/ipo.py:78-95 | an access returns the stored dictionary when one is stored and otherwise builds one; either way the result is well formed |
| `Ipo.FirstAccessRequestsAll` | stock_market/analysis/ipo.py:78-93 | a successful first access requests every candidate once, in listing order, and stores the built dictionary |
| `Ipo.SummaryRowsFetched` | stock_market/analysis/ipo.py:36-93 | every row of a summary computed on first access is for a ticker that some request returned a series for |
| `Ipo.SummaryRowPerFetchedTicker` | stock_market/analysis/ipo.py:36-93 | every ticker that some request returned a series for has exactly one row |
| `Ipo.RecentIPO.constructor` | stock_market/analysis/ipo.py:16-24 | a new analysis holds the listing, with no dictionary and no summary stored and no request made |
| `Ipo.RecentIPO.PriceHistory` | stock_market/analysis/ipo.py:72-95 | once a dictionary is stored it is returned unchanged and no request is made; otherwise the walk runs, and its result is stored only if no upstream error occurred |
| `Ipo.RecentIPO.SummaryAsWritten` | stock_market/analysis/ipo.py:26-70 | the source's accessor: it never stores the table and yields None, or the first error of the price history or of a row |
| `Ipo.RecentIPO.Summary` | stock_market/analysis/ipo.py:26-70 | the memoised accessor: the first successful access stores the table; later accesses return it unchanged with no request made |

## Findings

| source | as written | input that shows it | evidently intended | confidence | as-written member | corrected member |
|---|---|---|---|---|---|---|
| stock_market/analysis/ipo.py:36-70 | `summary` builds `ticker_agg_stats` in a local, never assigns `self._summary` and has no `return` | any `RecentIPO` whose fetches succeed: every access yields None and walks the table again | store the table in `_summary` and return it, so that later accesses reuse it (the property's docstring and the `_summary is None` guard) | high; not executed | `Ipo.RecentIPO.SummaryAsWritten` | `Ipo.RecentIPO.Summary` |

## Left out

- Fetching from the network (`get_ticker`), the recent-IPO listing (`IPO().recent_ipo`), and the 30-day window from `pd.to_datetime("today")`. These are I/O and the wall clock. They become the `fetch` parameter and the `candidates` constant. `stock_market.data` is not part of this model.
- pandas mechanics: `iloc`, `append`, `reset_index`, and the extra `index` column of zeros that `reset_index` leaves. The table is a sequence, and a row's position is its index.
- Floating-point rounding, NaN and infinity. With a zero first Open, numpy's float division yields an infinity or NaN with a warning, not an exception. Reals have no infinity, so `Metrics.Stats` reports this case as the error `ZeroBaseline`. This changes what happens further up. In the source, the loop goes on with an infinite or NaN row, and `summary` still yields None. In the model, the whole fold fails (`SummaryTable.TableOk`), `Ipo.RecentIPO.SummaryAsWritten` returns `Err(ZeroBaseline)`, and `Ipo.RecentIPO.Summary` stores nothing.
- Fetch exceptions other than `RemoteDataError` are one error value, `UpstreamFailure`, that ends the access. Their kind is not modelled. The `IndexError` that an empty series raises at the first-row read is a separate value, `EmptySeries`.
- `Metrics.OsdOngoing`: the name suggests "the peak lies within the last `OSD_THRESH` days". The source's conditional does not compute that, because both branches are True. The model keeps the source's constant.
- The unused `_individual_view` and the unused local `_summary = {}`.
- Concurrency: the accessors are modelled as single-threaded calls.
- The order of the dictionary's keys is stated as insertion order (`HistoryCache.Insert`). No lemma restates it as the order of first successful requests in the listing.
