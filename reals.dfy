/** A fact about exact real division used by the averages and the winner percentage. */
module Reals {

  /** A quotient by a positive number lies in [lo, hi] when the dividend lies in [lo * n, hi * n]. */
  lemma QuotientBounds(s: real, n: real, lo: real, hi: real)
    requires 0.0 < n && lo * n <= s <= hi * n
    ensures lo <= s / n <= hi
  {
  }
}
