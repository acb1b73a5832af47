/**
 * `RecentIPO`: the analysis object with its two memoised accessors,
 * `price_history` and `summary`.
 */
module Ipo {
  import opened Wrappers
  import opened Prices
  import opened Metrics
  import opened HistoryCache
  import opened SummaryTable

  /** The dictionary an access to `price_history` yields: the stored one, or else a fresh walk. */
  function HistoryFrom(cached: Option<History>, cands: seq<Ticker>, fetch: Fetcher): (r: Result<History, Error>)
    requires cached.Some? ==> WellFormed(cached.value)
    ensures r.Ok? ==> WellFormed(r.value)
  {
    if cached.Some? then Ok(cached.value) else Build(cands, fetch)
  }

  /** The stored dictionary after that access: a successful walk is stored, a failed one leaves it unset. */
  function CachedAfter(cached: Option<History>, cands: seq<Ticker>, fetch: Fetcher): Option<History> {
    if cached.Some? then cached
    else
      match Build(cands, fetch)
      case Ok(h) => Some(h)
      case Err(_) => None
  }

  /** The tickers that access asks the data provider for, in order. */
  function Requests(cached: Option<History>, cands: seq<Ticker>, fetch: Fetcher): seq<Ticker> {
    if cached.Some? then [] else cands[..Attempts(cands, fetch, 0)]
  }

  /** The table an access to `summary` computes from the stored or freshly built dictionary. */
  function SummaryFrom(cached: Option<History>, cands: seq<Ticker>, fetch: Fetcher): Result<seq<Row>, Error>
    requires cached.Some? ==> WellFormed(cached.value)
  {
    match HistoryFrom(cached, cands, fetch)
    case Ok(h) => Table(h)
    case Err(e) => Err(e)
  }

  /**
   * A successful first access builds a dictionary after asking for every
   * candidate once, in listing order.
   */
  lemma FirstAccessRequestsAll(cands: seq<Ticker>, fetch: Fetcher)
    requires Build(cands, fetch).Ok?
    ensures Requests(None, cands, fetch) == cands
    ensures CachedAfter(None, cands, fetch) == Some(Build(cands, fetch).value)
  {
    AttemptsOnSuccess(Empty, cands, 0, fetch);
  }

  /** Every row of a summary computed on a first access is for a ticker some request returned a series for. */
  lemma SummaryRowsFetched(cands: seq<Ticker>, fetch: Fetcher, i: nat)
    requires SummaryFrom(None, cands, fetch).Ok?
    requires i < |SummaryFrom(None, cands, fetch).value|
    ensures exists k: nat :: k < |cands| && FetchedAt(cands, fetch, k, SummaryFrom(None, cands, fetch).value[i].ticker)
  {
    var h := Build(cands, fetch).value;
    assert SummaryFrom(None, cands, fetch) == Table(h);
    BuildKeys(cands, fetch);
    TableTickersIn(h);
    assert SummaryFrom(None, cands, fetch).value[i].ticker in h.entries;
  }

  /**
   * A summary computed on a first access has exactly one row for every ticker
   * some request returned a series for.
   */
  lemma SummaryRowPerFetchedTicker(cands: seq<Ticker>, fetch: Fetcher, k: nat)
    requires SummaryFrom(None, cands, fetch).Ok?
    requires k < |cands| && FetchedAt(cands, fetch, k, cands[k])
    ensures var rows := SummaryFrom(None, cands, fetch).value;
      (exists i :: 0 <= i < |rows| && rows[i].ticker == cands[k]) &&
      forall i, j ::
        (0 <= i < |rows| && 0 <= j < |rows| && rows[i].ticker == cands[k] && rows[j].ticker == cands[k]) ==> i == j
  {
    var h := Build(cands, fetch).value;
    BuildKeys(cands, fetch);
    TableRowPerTicker(h, cands[k]);
  }

  class RecentIPO {
    /** `recent_ipo`: the Ticker column of the recent-IPO listing, in listing order. */
    const candidates: seq<Ticker>
    /** `_price_history`: unset until an access builds the dictionary without error. */
    var priceHistory: Option<History>
    /** `_summary`: the memoised summary table. */
    var summary: Option<seq<Row>>
    /** Every ticker asked of the data provider so far, in request order. */
    ghost var fetchLog: seq<Ticker>

    ghost predicate Valid()
      reads this
    {
      (priceHistory.Some? ==> WellFormed(priceHistory.value)) &&
      (summary.Some? ==> priceHistory.Some? && Table(priceHistory.value) == Ok(summary.value))
    }

    constructor (candidates: seq<Ticker>)
      ensures Valid()
      ensures this.candidates == candidates
      ensures priceHistory == None && summary == None && fetchLog == []
    {
      this.candidates := candidates;
      priceHistory := None;
      summary := None;
      fetchLog := [];
    }

    /**
     * `price_history`: the first access walks the candidates and stores the
     * dictionary; once stored it is returned as it is, with no request made.
     * A fetch error other than RemoteDataError ends the access and leaves the
     * dictionary unset.
     */
    method PriceHistory(fetch: Fetcher) returns (r: Result<History, Error>)
      requires Valid()
      modifies this`priceHistory, this`fetchLog
      ensures Valid()
      ensures old(priceHistory).Some? ==>
        r == Ok(old(priceHistory).value) && priceHistory == old(priceHistory) && fetchLog == old(fetchLog)
      ensures r == HistoryFrom(old(priceHistory), candidates, fetch)
      ensures priceHistory == CachedAfter(old(priceHistory), candidates, fetch)
      ensures fetchLog == old(fetchLog) + Requests(old(priceHistory), candidates, fetch)
    {
      if priceHistory.None? {
        var built, requested := CollectHistory(candidates, fetch);
        fetchLog := fetchLog + requested;
        if built.Err? {
          return built;
        }
        priceHistory := Some(built.value);
      }
      return Ok(priceHistory.value);
    }

    /**
     * `summary` as the source has it: `_summary` is never assigned, so every
     * access rebuilds the table from the price history, and the table is then
     * dropped, so the access yields None. Errors from the price history or
     * from a row still end the access.
     */
    method SummaryAsWritten(fetch: Fetcher) returns (r: Result<Option<seq<Row>>, Error>)
      requires Valid()
      modifies this`priceHistory, this`fetchLog
      ensures Valid()
      ensures summary == old(summary)
      ensures r.Ok? ==> r.value == None
      ensures old(summary).Some? ==> r == Ok(None) && priceHistory == old(priceHistory) && fetchLog == old(fetchLog)
      ensures old(summary).None? ==>
        (r.Err? <==> SummaryFrom(old(priceHistory), candidates, fetch).Err?) &&
        (r.Err? ==> r.error == SummaryFrom(old(priceHistory), candidates, fetch).error) &&
        priceHistory == CachedAfter(old(priceHistory), candidates, fetch) &&
        fetchLog == old(fetchLog) + Requests(old(priceHistory), candidates, fetch)
    {
      if summary.None? {
        var data := PriceHistory(fetch);
        if data.Err? {
          return Err(data.error);
        }
        var table := AggregateRows(data.value);
        if table.Err? {
          return Err(table.error);
        }
      }
      return Ok(None);
    }

    /**
     * `summary` as its documentation describes it: the first access that
     * computes the table stores it, and later accesses return the stored table
     * with no request made and nothing recomputed.
     */
    method Summary(fetch: Fetcher) returns (r: Result<seq<Row>, Error>)
      requires Valid()
      modifies this`priceHistory, this`summary, this`fetchLog
      ensures Valid()
      ensures old(summary).Some? ==>
        r == Ok(old(summary).value) && summary == old(summary) &&
        priceHistory == old(priceHistory) && fetchLog == old(fetchLog)
      ensures old(summary).None? ==>
        r == SummaryFrom(old(priceHistory), candidates, fetch) &&
        summary == (if r.Ok? then Some(r.value) else None) &&
        priceHistory == CachedAfter(old(priceHistory), candidates, fetch) &&
        fetchLog == old(fetchLog) + Requests(old(priceHistory), candidates, fetch)
    {
      if summary.Some? {
        return Ok(summary.value);
      }
      var data := PriceHistory(fetch);
      if data.Err? {
        return Err(data.error);
      }
      r := AggregateRows(data.value);
      if r.Ok? {
        summary := Some(r.value);
      }
    }
  }
}
