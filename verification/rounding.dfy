/** Rounding to hundredths, as `Math.round(x * 100) / 100` (and, for the
    non-negative times it is applied to, `Number(x.toFixed(2))`). */
module Rounding {

  /** `r` is a whole number of hundredths. */
  predicate IsHundredths(r: real) {
    (r * 100.0).Floor as real == r * 100.0
  }

  /** Round half up to two decimal places. */
  function RoundHundredths(x: real): (r: real)
    ensures x - 0.005 < r <= x + 0.005
    ensures IsHundredths(r)
  {
    ((x * 100.0 + 0.5).Floor as real) / 100.0
  }

  /** Rounding never reverses the order of two values. */
  lemma RoundMonotone(x: real, y: real)
    requires x <= y
    ensures RoundHundredths(x) <= RoundHundredths(y)
  {
    assert (x * 100.0 + 0.5).Floor <= (y * 100.0 + 0.5).Floor;
  }

  /** A value already on the hundredths grid is left unchanged. */
  lemma RoundExact(x: real)
    requires IsHundredths(x)
    ensures RoundHundredths(x) == x
  {
    var n := (x * 100.0).Floor;
    assert (x * 100.0 + 0.5).Floor == n;
  }

  /** Zero rounds to zero, so rounding keeps non-negative values non-negative. */
  lemma RoundNonNegative(x: real)
    ensures x >= 0.0 ==> RoundHundredths(x) >= 0.0
  {
    if x >= 0.0 {
      RoundMonotone(0.0, x);
      RoundExact(0.0);
    }
  }

  /** Dividing by a positive number keeps the order. */
  lemma DivMonotone(a: real, b: real, d: real)
    requires a <= b && d > 0.0
    ensures a / d <= b / d
  {
    assert b / d - a / d == (b - a) / d;
  }

  /** Multiplying by a non-negative number keeps the order. */
  lemma MulMonotone(a: real, b: real, h: real)
    requires a <= b && h >= 0.0
    ensures a * h <= b * h
  {
  }
}
