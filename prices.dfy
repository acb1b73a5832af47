/** Daily OHLC bars, the price series of one ticker, and the failures that abort the analysis. */
module Prices {
  type Ticker = string

  /** One trading day of a ticker: a row of the frame the data provider returns. */
  datatype Bar = Bar(open: real, high: real, low: real, close: real)

  /** The bars of one ticker in trading-day order; index 0 is the first day of the lookback window. */
  type Series = seq<Bar>

  /** Why an access to `price_history` or `summary` ends without a value. */
  datatype Error =
    | UpstreamFailure(ticker: Ticker)  // a fetch error other than RemoteDataError: not caught
    | EmptySeries(ticker: Ticker)      // the series has no first bar to read the Open of
    | ZeroBaseline(ticker: Ticker)     // the first Open is 0, so the percent change divides by zero

  /** The High column of a series. */
  function Highs(s: Series): (h: seq<real>)
    ensures |h| == |s|
    ensures forall i :: 0 <= i < |s| ==> h[i] == s[i].high
  {
    seq(|s|, i requires 0 <= i < |s| => s[i].high)
  }
}
