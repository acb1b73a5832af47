/**
 * The dictionary `RecentIPO.price_history` builds: one fetch per candidate
 * ticker, in listing order, skipping tickers the data provider has no data for.
 */
module HistoryCache {
  import opened Wrappers
  import opened Prices

  /** What the data provider answers to one `get_ticker` request. */
  datatype FetchOutcome =
    | Fetched(series: Series)
    | RemoteDataError  // no coverage for the ticker: skipped silently
    | OtherError       // any other failure: propagates out of the walk

  /**
   * The data provider's answer to the request made at position `i` of the walk
   * over the candidates, for ticker `t`. The answer depends on the position
   * because every request is a separate query made at its own time.
   */
  type Fetcher = (nat, Ticker) -> FetchOutcome

  /** A Python dict from ticker to series: its entries, and its keys in insertion order. */
  datatype History = History(keys: seq<Ticker>, entries: map<Ticker, Series>)

  const Empty: History := History([], map[])

  ghost predicate WellFormed(h: History) {
    (forall i, j :: 0 <= i < j < |h.keys| ==> h.keys[i] != h.keys[j]) &&
    (forall t :: t in h.entries <==> t in h.keys) &&
    |h.keys| == |h.entries|
  }

  /** `d[t] = s`: a new key goes last, an existing key keeps its place and gets the new series. */
  function Insert(h: History, t: Ticker, s: Series): (h': History)
    ensures h'.entries == h.entries[t := s]
    ensures t in h.entries ==> h'.keys == h.keys
    ensures t !in h.entries ==> h'.keys == h.keys + [t]
    ensures WellFormed(h) ==> WellFormed(h')
  {
    if t in h.entries then History(h.keys, h.entries[t := s])
    else History(h.keys + [t], h.entries[t := s])
  }

  /**
   * The loop of `price_history` from position `i` on, with `h` the dictionary
   * built so far. A RemoteDataError skips the ticker; any other fetch error ends
   * the walk with an error, and the dictionary is then never stored.
   */
  function Walk(h: History, cands: seq<Ticker>, i: nat, fetch: Fetcher): (r: Result<History, Error>)
    requires i <= |cands|
    ensures r.Ok? && WellFormed(h) ==> WellFormed(r.value)
    decreases |cands| - i
  {
    if i == |cands| then Ok(h)
    else
      match fetch(i, cands[i])
      case Fetched(s) => Walk(Insert(h, cands[i], s), cands, i + 1, fetch)
      case RemoteDataError => Walk(h, cands, i + 1, fetch)
      case OtherError => Err(UpstreamFailure(cands[i]))
  }

  /** The dictionary `price_history` builds from the candidate tickers. */
  function Build(cands: seq<Ticker>, fetch: Fetcher): (r: Result<History, Error>)
    ensures r.Ok? ==> WellFormed(r.value)
  {
    Walk(Empty, cands, 0, fetch)
  }

  /** How many requests the walk from position `i` makes before it ends; the result is the end position. */
  function Attempts(cands: seq<Ticker>, fetch: Fetcher, i: nat): (n: nat)
    requires i <= |cands|
    ensures i <= n <= |cands|
    ensures n == i <==> i == |cands|
    ensures forall k :: i <= k < n - 1 ==> !fetch(k, cands[k]).OtherError?
    ensures n < |cands| ==> fetch(n - 1, cands[n - 1]).OtherError?
    decreases |cands| - i
  {
    if i == |cands| then i
    else if fetch(i, cands[i]).OtherError? then i + 1
    else Attempts(cands, fetch, i + 1)
  }

  /** A walk that ends with a dictionary has asked for every candidate from position `i` on. */
  lemma {:induction false} AttemptsOnSuccess(h: History, cands: seq<Ticker>, i: nat, fetch: Fetcher)
    requires i <= |cands|
    requires Walk(h, cands, i, fetch).Ok?
    ensures Attempts(cands, fetch, i) == |cands|
    decreases |cands| - i
  {
    if i < |cands| {
      match fetch(i, cands[i]) {
        case Fetched(s) => AttemptsOnSuccess(Insert(h, cands[i], s), cands, i + 1, fetch);
        case RemoteDataError => AttemptsOnSuccess(h, cands, i + 1, fetch);
        case OtherError => assert false;
      }
    }
  }

  /** The request at position `k` was for `t` and returned a series. */
  ghost predicate FetchedAt(cands: seq<Ticker>, fetch: Fetcher, k: nat, t: Ticker)
    requires k < |cands|
  {
    cands[k] == t && fetch(k, t).Fetched?
  }

  /** Position `k` is the last successful request for `t`. */
  ghost predicate LastFetchedAt(cands: seq<Ticker>, fetch: Fetcher, k: nat, t: Ticker)
    requires k < |cands|
  {
    FetchedAt(cands, fetch, k, t) &&
    forall m :: k < m < |cands| ==> !FetchedAt(cands, fetch, m, t)
  }

  /**
   * What the walk from position `i` does to the entry of one ticker `t`: it is
   * present afterwards exactly when it was present before or some later request
   * for it returned a series, and it then holds the last such series, or the
   * series it had before when no later request succeeded.
   */
  lemma {:induction false} WalkEntry(h: History, cands: seq<Ticker>, i: nat, fetch: Fetcher, t: Ticker)
    requires i <= |cands|
    requires Walk(h, cands, i, fetch).Ok?
    ensures var h' := Walk(h, cands, i, fetch).value;
      (t in h'.entries <==> t in h.entries || exists k: nat :: i <= k < |cands| && FetchedAt(cands, fetch, k, t)) &&
      (t in h'.entries ==>
         (exists k: nat :: i <= k < |cands| && LastFetchedAt(cands, fetch, k, t) && h'.entries[t] == fetch(k, t).series) ||
         ((forall k :: i <= k < |cands| ==> !FetchedAt(cands, fetch, k, t)) && h'.entries[t] == h.entries[t]))
    decreases |cands| - i
  {
    if i < |cands| {
      var h' := Walk(h, cands, i, fetch).value;
      match fetch(i, cands[i]) {
        case Fetched(s) =>
          var h1 := Insert(h, cands[i], s);
          WalkEntry(h1, cands, i + 1, fetch, t);
          if t == cands[i] && t in h'.entries &&
             forall k :: i + 1 <= k < |cands| ==> !FetchedAt(cands, fetch, k, t) {
            assert LastFetchedAt(cands, fetch, i, t);
          }
        case RemoteDataError =>
          WalkEntry(h, cands, i + 1, fetch, t);
          assert !FetchedAt(cands, fetch, i, t);
        case OtherError =>
          assert false;
      }
    }
  }

  /**
   * The walk from position `i` fails exactly when some request from `i` on
   * fails with an error other than RemoteDataError, and it reports the first.
   */
  lemma {:induction false} WalkFails(h: History, cands: seq<Ticker>, i: nat, fetch: Fetcher)
    requires i <= |cands|
    ensures Walk(h, cands, i, fetch).Err? <==> exists k :: i <= k < |cands| && fetch(k, cands[k]).OtherError?
    ensures Walk(h, cands, i, fetch).Err? ==>
      exists k :: i <= k < |cands| && fetch(k, cands[k]).OtherError? &&
        Walk(h, cands, i, fetch).error == UpstreamFailure(cands[k]) &&
        forall m :: i <= m < k ==> !fetch(m, cands[m]).OtherError?
    decreases |cands| - i
  {
    if i < |cands| {
      match fetch(i, cands[i]) {
        case Fetched(s) => WalkFails(Insert(h, cands[i], s), cands, i + 1, fetch);
        case RemoteDataError => WalkFails(h, cands, i + 1, fetch);
        case OtherError =>
      }
    }
  }

  /**
   * The keys of the built dictionary are exactly the candidates for which some
   * request returned a series: tickers whose every request failed never appear.
   */
  lemma BuildKeys(cands: seq<Ticker>, fetch: Fetcher)
    requires Build(cands, fetch).Ok?
    ensures forall t :: t in Build(cands, fetch).value.entries <==>
      exists k: nat :: k < |cands| && FetchedAt(cands, fetch, k, t)
  {
    forall t
      ensures t in Build(cands, fetch).value.entries <==>
        exists k: nat :: k < |cands| && FetchedAt(cands, fetch, k, t)
    {
      WalkEntry(Empty, cands, 0, fetch, t);
    }
  }

  /**
   * Each key of the built dictionary maps to the series of its last successful
   * request: a later success for a repeated ticker overwrites an earlier one,
   * and a later RemoteDataError leaves it in place.
   */
  lemma BuildValues(cands: seq<Ticker>, fetch: Fetcher)
    requires Build(cands, fetch).Ok?
    ensures forall t :: t in Build(cands, fetch).value.entries ==>
      exists k: nat :: k < |cands| && LastFetchedAt(cands, fetch, k, t) &&
        Build(cands, fetch).value.entries[t] == fetch(k, t).series
  {
    forall t | t in Build(cands, fetch).value.entries
      ensures exists k: nat :: (k < |cands| && LastFetchedAt(cands, fetch, k, t) &&
                           Build(cands, fetch).value.entries[t] == fetch(k, t).series)
    {
      WalkEntry(Empty, cands, 0, fetch, t);
    }
  }

  /**
   * The loop of `price_history`: requests each candidate's series in order and
   * builds the dictionary; `requested` is the sequence of tickers it asked the
   * data provider for.
   */
  method CollectHistory(cands: seq<Ticker>, fetch: Fetcher) returns (r: Result<History, Error>, ghost requested: seq<Ticker>)
    ensures r == Build(cands, fetch)
    ensures requested == cands[..Attempts(cands, fetch, 0)]
  {
    var h := Empty;
    var i := 0;
    requested := [];
    while i < |cands|
      invariant i <= |cands|
      invariant Walk(h, cands, i, fetch) == Build(cands, fetch)
      invariant Attempts(cands, fetch, i) == Attempts(cands, fetch, 0)
      invariant requested == cands[..i]
    {
      var ticker := cands[i];
      requested := requested + [ticker];
      match fetch(i, ticker) {
        case Fetched(s) =>
          h := Insert(h, ticker, s);
        case RemoteDataError =>
        case OtherError =>
          assert requested == cands[..i + 1];
          return Err(UpstreamFailure(ticker)), requested;
      }
      i := i + 1;
    }
    return Ok(h), requested;
  }
}
