/** The `_percent_change` helper. */
module Percent {
  /** `100.0 if to_percent else 1.0` */
  function Multiplier(toPercent: bool): real {
    if toPercent then 100.0 else 1.0
  }

  /**
   * Relative change from `start` to `end`, in percent or as a decimal fraction.
   * The baseline must be nonzero: the source divides by it.
   */
  function PercentChange(start: real, end: real, toPercent: bool): (r: real)
    requires start != 0.0
    ensures r * start == (end - start) * Multiplier(toPercent)
  {
    (end - start) / start * Multiplier(toPercent)
  }

  /**
   * The percent change is the one number that, multiplied by the baseline,
   * gives the difference scaled by the multiplier; it is zero exactly when the
   * value did not move, and from a positive baseline it is positive exactly
   * when the value rose.
   */
  lemma PercentChangeScaled(start: real, end: real, toPercent: bool)
    requires start != 0.0
    ensures PercentChange(start, end, toPercent) * start == (end - start) * Multiplier(toPercent)
    ensures PercentChange(start, end, toPercent) == 0.0 <==> end == start
    ensures start > 0.0 ==> (PercentChange(start, end, toPercent) > 0.0 <==> end > start)
  {
  }

  /** The price reached from `start` after a change of `pct` percent. */
  function ApplyPercent(start: real, pct: real): real {
    start + start * pct / 100.0
  }

  /** The percent form is exactly 100 times the decimal form. */
  lemma PercentIsHundredTimesDecimal(start: real, end: real)
    requires start != 0.0
    ensures PercentChange(start, end, true) == 100.0 * PercentChange(start, end, false)
  {
  }

  /** Applying the computed percent change to the baseline gives back the end value. */
  lemma ApplyPercentChange(start: real, end: real)
    requires start != 0.0
    ensures ApplyPercent(start, PercentChange(start, end, true)) == end
  {
    var r := PercentChange(start, end, true);
    PercentChangeScaled(start, end, true);
    assert r * start == (end - start) * 100.0;
    calc {
      ApplyPercent(start, r);
      start + (r * start) / 100.0;
      start + (end - start) * 100.0 / 100.0;
      end;
    }
  }

  /** Measuring the change to an applied percentage gives back that percentage. */
  lemma PercentChangeOfApplied(start: real, pct: real)
    requires start != 0.0
    ensures PercentChange(start, ApplyPercent(start, pct), true) == pct
  {
    var r := PercentChange(start, ApplyPercent(start, pct), true);
    PercentChangeScaled(start, ApplyPercent(start, pct), true);
    assert r * start == (start * pct / 100.0) * 100.0;
    assert r * start == pct * start;
  }
}
