/** The per-ticker statistics row computed inside `RecentIPO.summary`. */
module Metrics {
  import opened Wrappers
  import opened Prices
  import opened Percent

  /** Number of trading days from the end of a series that the optimal sell day is compared against. */
  const OSD_THRESH: int := 3

  /** Python's `max` over a non-empty list of prices. */
  function Max(s: seq<real>): (m: real)
    requires |s| > 0
    ensures m in s
    ensures forall i :: 0 <= i < |s| ==> s[i] <= m
  {
    if |s| == 1 then s[0]
    else
      var rest := Max(s[1..]);
      if s[0] >= rest then s[0] else rest
  }

  /** Python's `list.index`: the position of the first occurrence of `x`. */
  function IndexOf(s: seq<real>, x: real): (i: nat)
    requires x in s
    ensures i < |s| && s[i] == x
    ensures forall j :: 0 <= j < i ==> s[j] != x
  {
    if s[0] == x then 0 else 1 + IndexOf(s[1..], x)
  }

  /**
   * Optimal sell day: `ticker_high.index(max(ticker_high))`, the trading day on
   * which the High was greatest, the earliest such day on a tie.
   */
  function OptimalSellDay(highs: seq<real>): (osd: nat)
    requires |highs| > 0
    ensures osd < |highs|
    ensures highs[osd] == Max(highs)
    ensures forall j :: 0 <= j < |highs| ==> highs[j] <= highs[osd]
    ensures forall j :: 0 <= j < osd ==> highs[j] < highs[osd]
  {
    IndexOf(highs, Max(highs))
  }

  /** The optimal sell day is the only index that is a maximum with no earlier maximum. */
  lemma OptimalSellDayUnique(highs: seq<real>, k: nat)
    requires k < |highs|
    requires forall j :: 0 <= j < |highs| ==> highs[j] <= highs[k]
    requires forall j :: 0 <= j < k ==> highs[j] < highs[k]
    ensures OptimalSellDay(highs) == k
  {
  }

  /**
   * `OSD_Ongoing` as the source computes it: both arms of the conditional are
   * True, so the flag is set whatever the series length and the sell day are.
   * (Its name suggests "the peak lies within the last OSD_THRESH days", which
   * the conditional does not compute.)
   */
  function OsdOngoing(length: nat, osd: nat): (ongoing: bool)
    ensures ongoing
  {
    if length - OSD_THRESH > osd then true else true
  }

  /** One row of the summary table. */
  datatype Row = Row(
    ticker: Ticker,
    pctOverallChange: real,  // Pct_Overall_Change
    osd: nat,                // OSD
    osdMaxPctGain: real,     // OSD_Max_Pct_Gain
    osdOngoing: bool)        // OSD_Ongoing

  /**
   * The statistics of one ticker. Reading the first Open of an empty series
   * fails, and a zero first Open leaves both percent changes undefined.
   */
  function Stats(ticker: Ticker, s: Series): (r: Result<Row, Error>)
    ensures |s| == 0 ==> r == Err(EmptySeries(ticker))
    ensures |s| > 0 && s[0].open == 0.0 ==> r == Err(ZeroBaseline(ticker))
    ensures r.Ok? <==> |s| > 0 && s[0].open != 0.0
    ensures r.Ok? ==> r.value.ticker == ticker
  {
    if |s| == 0 then Err(EmptySeries(ticker))
    else if s[0].open == 0.0 then Err(ZeroBaseline(ticker))
    else Ok(RowOf(ticker, s))
  }

  /** The statistics dict of a series with a first bar whose Open is nonzero. */
  function RowOf(ticker: Ticker, s: Series): (row: Row)
    requires |s| > 0 && s[0].open != 0.0
    ensures row.ticker == ticker
    ensures row.osd < |s| && forall j :: 0 <= j < |s| ==> s[j].high <= s[row.osd].high
    ensures row.osdOngoing
  {
    var open := s[0].open;
    var highs := Highs(s);
    var osd := OptimalSellDay(highs);
    Row(
      ticker,
      PercentChange(open, s[|s| - 1].close, true),
      osd,
      PercentChange(open, Max(highs), true),
      OsdOngoing(|highs|, osd))
  }

  /**
   * `row` is the statistics row of `ticker` over `s`: it names the ticker; its
   * sell day is a valid index holding the greatest High with no equal High
   * before it; its overall change runs from the first Open to the last Close
   * and its peak gain from the first Open to that greatest High; and it is
   * flagged ongoing.
   */
  ghost predicate Describes(row: Row, ticker: Ticker, s: Series) {
    row.ticker == ticker &&
    row.osd < |s| &&
    (forall j :: 0 <= j < |s| ==> s[j].high <= s[row.osd].high) &&
    (forall j :: 0 <= j < row.osd ==> s[j].high < s[row.osd].high) &&
    row.pctOverallChange * s[0].open == (s[|s| - 1].close - s[0].open) * 100.0 &&
    row.osdMaxPctGain * s[0].open == (s[row.osd].high - s[0].open) * 100.0 &&
    row.osdOngoing
  }

  /** A computed row satisfies every property of the statistics row. */
  lemma StatsRow(ticker: Ticker, s: Series)
    requires Stats(ticker, s).Ok?
    ensures Describes(Stats(ticker, s).value, ticker, s)
  {
    var highs := Highs(s);
    var osd := OptimalSellDay(highs);
    assert Stats(ticker, s).value.osd == osd;
    PercentChangeScaled(s[0].open, s[|s| - 1].close, true);
    PercentChangeScaled(s[0].open, Max(highs), true);
  }

  /** Only one row satisfies those properties: they determine the row completely. */
  lemma DescribesUnique(row: Row, ticker: Ticker, s: Series)
    requires |s| > 0 && s[0].open != 0.0
    requires Describes(row, ticker, s)
    ensures Stats(ticker, s) == Ok(row)
  {
    StatsRow(ticker, s);
    var r := Stats(ticker, s).value;
    OptimalSellDayUnique(Highs(s), row.osd);
    OptimalSellDayUnique(Highs(s), r.osd);
    assert row.osd == r.osd;
    MulCancel(row.pctOverallChange, r.pctOverallChange, s[0].open);
    assert r.osdMaxPctGain * s[0].open == (s[row.osd].high - s[0].open) * 100.0;
    MulCancel(row.osdMaxPctGain, r.osdMaxPctGain, s[0].open);
  }

  lemma MulCancel(x: real, y: real, c: real)
    requires c != 0.0 && x * c == y * c
    ensures x == y
  {
    assert (x - y) * c == 0.0;
  }

  /** A single-bar series peaks on day 0 and both changes are measured within that bar. */
  lemma SingleBarStats(ticker: Ticker, b: Bar)
    requires b.open != 0.0
    ensures Stats(ticker, [b]) == Ok(Row(ticker, PercentChange(b.open, b.close, true), 0,
                                         PercentChange(b.open, b.high, true), true))
  {
    var r := Stats(ticker, [b]);
    StatsRow(ticker, [b]);
    assert r.value.osd == 0;
    assert r.value.pctOverallChange * b.open == (b.close - b.open) * 100.0;
    assert r.value.osdMaxPctGain * b.open == (b.high - b.open) * 100.0;
  }
}
