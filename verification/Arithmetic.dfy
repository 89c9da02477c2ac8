/** Facts about products and quotients of whole numbers. */
module Arithmetic {

  /** num / den is the largest whole number q with q * den at most num. */
  lemma QuotientAtLeast(num: int, den: int, q: int)
    requires den > 0
    ensures q <= num / den <==> q * den <= num
  {
    var quotient := num / den;
    assert quotient * den + num % den == num;
    if q <= quotient {
      assert q * den <= quotient * den;
    } else {
      assert (quotient + 1) * den <= q * den;
    }
  }

  lemma TimesMonotone(a: int, b: int, f: int)
    requires a <= b && 0 <= f
    ensures a * f <= b * f
  {
  }

  lemma TimesCancel(a: int, b: int, f: int)
    requires a * f <= b * f && 0 < f
    ensures a <= b
  {
  }
}
