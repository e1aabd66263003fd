/** Facts about exact fractions of non-negative quantities. */
module Ratios {

  /** A fraction whose numerator does not exceed its denominator is at most 1. */
  lemma QuotientAtMostOne(i: real, u: real)
    requires 0.0 <= i <= u && u > 0.0
    ensures 0.0 <= i / u <= 1.0
    ensures (i / u) * u == i
  {
  }

  /** i / u >= c exactly when i >= c * u, for a positive denominator. */
  lemma QuotientAtLeast(i: real, u: real, c: real)
    requires u > 0.0
    ensures i / u >= c <==> i >= c * u
  {
    var q := i / u;
    assert q * u == i;
    if q >= c {
      assert (q - c) * u >= 0.0;
    } else {
      assert (c - q) * u > 0.0;
    }
  }
}
