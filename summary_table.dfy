/**
 * The table `RecentIPO.summary` folds from the price history: one statistics
 * row per ticker, in the dictionary's key order, re-indexed from 0.
 */
module SummaryTable {
  import opened Wrappers
  import opened Prices
  import opened Metrics
  import opened HistoryCache

  /** Every key has an entry. */
  ghost predicate KeysIn(keys: seq<Ticker>, entries: map<Ticker, Series>) {
    forall k :: 0 <= k < |keys| ==> keys[k] in entries
  }

  /** `rows` put in front of the rows still to come, unless those fail. */
  function Prefixed(rows: seq<Row>, rest: Result<seq<Row>, Error>): Result<seq<Row>, Error> {
    match rest
    case Ok(more) => Ok(rows + more)
    case Err(e) => Err(e)
  }

  /**
   * The rows of `keys[i..]`, in order; the first ticker whose statistics
   * cannot be computed aborts the whole table.
   */
  function RowsFrom(keys: seq<Ticker>, entries: map<Ticker, Series>, i: nat): (r: Result<seq<Row>, Error>)
    requires KeysIn(keys, entries) && i <= |keys|
    ensures r.Ok? ==> |r.value| == |keys| - i
    ensures r.Ok? && i < |keys| ==> Stats(keys[i], entries[keys[i]]) == Ok(r.value[0])
    decreases |keys| - i
  {
    if i == |keys| then Ok([])
    else
      match Stats(keys[i], entries[keys[i]])
      case Err(e) => Err(e)
      case Ok(row) => Prefixed([row], RowsFrom(keys, entries, i + 1))
  }

  /** The summary table of a price history; a row's position in the sequence is its index. */
  function Table(h: History): (r: Result<seq<Row>, Error>)
    requires WellFormed(h)
    ensures r.Ok? ==> |r.value| == |h.keys| == |h.entries|
  {
    assert KeysIn(h.keys, h.entries) by {
      forall k | 0 <= k < |h.keys| ensures h.keys[k] in h.entries {
        assert h.keys[k] in h.keys;
      }
    }
    RowsFrom(h.keys, h.entries, 0)
  }

  /** The rows from position `i` are computed exactly when every later key's statistics are. */
  lemma {:induction false} RowsFromOk(keys: seq<Ticker>, entries: map<Ticker, Series>, i: nat)
    requires KeysIn(keys, entries) && i <= |keys|
    ensures RowsFrom(keys, entries, i).Ok? <==>
      forall k :: i <= k < |keys| ==> Stats(keys[k], entries[keys[k]]).Ok?
    decreases |keys| - i
  {
    if i < |keys| {
      RowsFromOk(keys, entries, i + 1);
    }
  }

  /** Computed rows from position `i`: row `k - i` is the statistics row of key `k`. */
  lemma {:induction false} RowsFromAt(keys: seq<Ticker>, entries: map<Ticker, Series>, i: nat)
    requires KeysIn(keys, entries) && i <= |keys|
    requires RowsFrom(keys, entries, i).Ok?
    ensures |RowsFrom(keys, entries, i).value| == |keys| - i
    ensures forall k :: i <= k < |keys| ==> Stats(keys[k], entries[keys[k]]) == Ok(RowsFrom(keys, entries, i).value[k - i])
    decreases |keys| - i
  {
    if i < |keys| {
      RowsFromAt(keys, entries, i + 1);
    }
  }

  /** Computed rows from position `i`: row `k - i` names key `k`. */
  lemma {:induction false} RowsFromTickers(keys: seq<Ticker>, entries: map<Ticker, Series>, i: nat)
    requires KeysIn(keys, entries) && i <= |keys|
    requires RowsFrom(keys, entries, i).Ok?
    ensures |RowsFrom(keys, entries, i).value| == |keys| - i
    ensures forall k :: i <= k < |keys| ==> RowsFrom(keys, entries, i).value[k - i].ticker == keys[k]
    decreases |keys| - i
  {
    if i < |keys| {
      RowsFromTickers(keys, entries, i + 1);
    }
  }

  /** A failing table reports the error of the first key whose statistics fail. */
  lemma {:induction false} RowsFromFirstError(keys: seq<Ticker>, entries: map<Ticker, Series>, i: nat)
    requires KeysIn(keys, entries) && i <= |keys|
    requires RowsFrom(keys, entries, i).Err?
    ensures exists k :: i <= k < |keys| && Stats(keys[k], entries[keys[k]]).Err? &&
              RowsFrom(keys, entries, i).error == Stats(keys[k], entries[keys[k]]).error &&
              forall m :: i <= m < k ==> Stats(keys[m], entries[keys[m]]).Ok?
    decreases |keys| - i
  {
    if Stats(keys[i], entries[keys[i]]).Ok? {
      RowsFromFirstError(keys, entries, i + 1);
    }
  }

  /**
   * The table is computed exactly when every series of the history is
   * non-empty with a nonzero first Open.
   */
  lemma TableOk(h: History)
    requires WellFormed(h)
    ensures Table(h).Ok? <==> forall t :: t in h.entries ==> |h.entries[t]| > 0 && h.entries[t][0].open != 0.0
  {
    RowsFromOk(h.keys, h.entries, 0);
    if Table(h).Err? {
      var k :| 0 <= k < |h.keys| && !Stats(h.keys[k], h.entries[h.keys[k]]).Ok?;
      assert h.keys[k] in h.entries;
    } else {
      forall t | t in h.entries ensures |h.entries[t]| > 0 && h.entries[t][0].open != 0.0 {
        var k :| 0 <= k < |h.keys| && h.keys[k] == t;
        assert Stats(h.keys[k], h.entries[h.keys[k]]).Ok?;
      }
    }
  }

  /** A failing table reports the first key, in key order, whose statistics fail. */
  lemma TableFirstError(h: History)
    requires WellFormed(h)
    requires Table(h).Err?
    ensures exists k :: 0 <= k < |h.keys| && Stats(h.keys[k], h.entries[h.keys[k]]).Err? &&
              Table(h).error == Stats(h.keys[k], h.entries[h.keys[k]]).error &&
              forall m :: 0 <= m < k ==> Stats(h.keys[m], h.entries[h.keys[m]]).Ok?
  {
    RowsFromFirstError(h.keys, h.entries, 0);
  }

  /**
   * A computed table has one row per entry of the history, and row `i` names
   * key `i`.
   */
  lemma TableTickers(h: History)
    requires WellFormed(h)
    requires Table(h).Ok?
    ensures |Table(h).value| == |h.entries|
    ensures forall i :: 0 <= i < |h.keys| ==> Table(h).value[i].ticker == h.keys[i]
  {
    RowsFromTickers(h.keys, h.entries, 0);
    var rows := Table(h).value;
    forall i | 0 <= i < |h.keys| ensures rows[i].ticker == h.keys[i] {
      assert rows[i - 0].ticker == h.keys[i];
    }
  }

  /** Every row of a computed table is for a ticker of the history. */
  lemma TableTickersIn(h: History)
    requires WellFormed(h)
    requires Table(h).Ok?
    ensures forall i :: 0 <= i < |Table(h).value| ==> Table(h).value[i].ticker in h.entries
  {
    TableTickers(h);
    forall i | 0 <= i < |Table(h).value| ensures Table(h).value[i].ticker in h.entries {
      assert h.keys[i] in h.keys;
    }
  }

  /** Every ticker of the history has exactly one row in a computed table. */
  lemma TableRowPerTicker(h: History, t: Ticker)
    requires WellFormed(h)
    requires Table(h).Ok?
    requires t in h.entries
    ensures exists i :: 0 <= i < |Table(h).value| && Table(h).value[i].ticker == t
    ensures forall i, j ::
              (0 <= i < |Table(h).value| && 0 <= j < |Table(h).value| &&
               Table(h).value[i].ticker == t && Table(h).value[j].ticker == t) ==> i == j
  {
    TableTickers(h);
    var rows := Table(h).value;
    var i :| 0 <= i < |h.keys| && h.keys[i] == t;
    assert rows[i].ticker == t;
  }

  /**
   * Each row has every property of its key's statistics row: its overall
   * change runs from the first Open to the last Close of the ticker's series,
   * its sell day is the first day of the greatest High, and so on.
   */
  lemma TableRowsDescribe(h: History)
    requires WellFormed(h)
    requires Table(h).Ok?
    ensures |Table(h).value| == |h.keys|
    ensures forall i :: 0 <= i < |h.keys| ==>
      Describes(Table(h).value[i], h.keys[i], h.entries[h.keys[i]])
  {
    RowsFromOk(h.keys, h.entries, 0);
    RowsFromAt(h.keys, h.entries, 0);
    var rows := Table(h).value;
    forall i | 0 <= i < |h.keys|
      ensures Describes(rows[i], h.keys[i], h.entries[h.keys[i]])
    {
      StatsRow(h.keys[i], h.entries[h.keys[i]]);
    }
  }

  /** One step of the fold after the rows already computed: key `i`'s row joins them, or its error ends the table. */
  lemma RowsFromStep(table: seq<Row>, keys: seq<Ticker>, entries: map<Ticker, Series>, i: nat)
    requires KeysIn(keys, entries) && i < |keys|
    ensures Stats(keys[i], entries[keys[i]]).Err? ==>
      Prefixed(table, RowsFrom(keys, entries, i)) == Err(Stats(keys[i], entries[keys[i]]).error)
    ensures Stats(keys[i], entries[keys[i]]).Ok? ==>
      Prefixed(table, RowsFrom(keys, entries, i)) ==
      Prefixed(table + [Stats(keys[i], entries[keys[i]]).value], RowsFrom(keys, entries, i + 1))
  {
    var stats := Stats(keys[i], entries[keys[i]]);
    if stats.Ok? {
      match RowsFrom(keys, entries, i + 1) {
        case Ok(more) => assert table + ([stats.value] + more) == (table + [stats.value]) + more;
        case Err(_) =>
      }
    }
  }

  /** The loop of `summary`: one statistics row per key of the history, appended in key order. */
  method AggregateRows(h: History) returns (r: Result<seq<Row>, Error>)
    requires WellFormed(h)
    ensures r == Table(h)
  {
    var table: seq<Row> := [];
    var i := 0;
    match Table(h) {
      case Ok(more) => assert table + more == more;
      case Err(_) =>
    }
    while i < |h.keys|
      invariant i <= |h.keys| && KeysIn(h.keys, h.entries)
      invariant Table(h) == Prefixed(table, RowsFrom(h.keys, h.entries, i))
    {
      var ticker := h.keys[i];
      RowsFromStep(table, h.keys, h.entries, i);
      var stats := Stats(ticker, h.entries[ticker]);
      if stats.Err? {
        return Err(stats.error);
      }
      table := table + [stats.value];
      i := i + 1;
    }
    assert table + [] == table;
    return Ok(table);
  }
}
