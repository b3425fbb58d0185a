/** Python `Decimal.quantize` under the default context (ROUND_HALF_EVEN),
    on amounts held as integer multiples of their smallest unit. */
module Decimal {

  /** The value `n / d` rounded to the nearest integer, ties to the even one. */
  function RoundHalfEven(n: int, d: int): (r: int)
    requires d > 0
    ensures 2 * (d * r - n) <= d && 2 * (n - d * r) <= d
    ensures 2 * (d * r - n) == d || 2 * (n - d * r) == d ==> r % 2 == 0
  {
    var q := n / d;
    var m := n % d;
    if 2 * m > d then q + 1
    else if 2 * m < d then q
    else if q % 2 == 0 then q
    else q + 1
  }

  /** `r` is `n / d` rounded to nearest, ties to even. */
  predicate IsRoundHalfEven(n: int, d: int, r: int)
    requires d > 0
  {
    && 2 * (d * r - n) <= d && 2 * (n - d * r) <= d
    && (2 * (d * r - n) == d || 2 * (n - d * r) == d ==> r % 2 == 0)
  }

  /** The contract pins the result down: no other integer satisfies it. */
  lemma RoundHalfEvenUnique(n: int, d: int, r: int)
    requires d > 0
    requires IsRoundHalfEven(n, d, r)
    ensures r == RoundHalfEven(n, d)
  {
    NearestUnique(n, d, r, RoundHalfEven(n, d));
  }

  lemma NearestUnique(n: int, d: int, r: int, e: int)
    requires d > 0
    requires IsRoundHalfEven(n, d, r) && IsRoundHalfEven(n, d, e)
    ensures r == e
  {
    var k := r - e;
    assert d * r - d * e == d * k;
    // both are within half a unit of n / d, so d * k lies in [-d, d]
    assert -1 <= k <= 1 by {
      if k >= 2 { MulAtLeast(d, k, 2); }
      if k <= -2 { MulAtLeast(d, -k, 2); }
    }
    // a difference of one unit would make both of them ties, hence both
    // even, which two neighbouring integers cannot be
    assert k != 1 && k != -1;
  }

  lemma MulAtLeast(d: int, k: int, m: int)
    requires d > 0 && k >= m
    ensures d * k >= d * m
  {
    assert d * k - d * m == d * (k - m);
  }

  /** A whole number of units is left unchanged. */
  lemma RoundExact(k: int, d: int)
    requires d > 0
    ensures RoundHalfEven(k * d, d) == k
  {
    RoundHalfEvenUnique(k * d, d, k);
  }
}
