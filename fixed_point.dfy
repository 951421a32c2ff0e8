/** Exact decimal arithmetic as scaled integers, and `Decimal.quantize` under the
    default decimal context (round half to even). */
module FixedPoint {

  /** Money columns Numeric(12, 2) hold hundredths; Numeric(6, 4) holds ten-thousandths. */
  const Hundredths: int := 100
  const TenThousandths: int := 10000

  function Dist(a: int, b: int): (r: nat)
    ensures r == a - b || r == b - a
  {
    if a >= b then a - b else b - a
  }

  /** `Decimal(n / d).quantize(Decimal(1))`: the integer nearest to n / d, ties to the even one.
      With d = 10^k this moves a value with k more decimals onto the coarser grid. */
  function Quantize(n: int, d: int): (q: int)
    requires d > 0
    ensures RoundsHalfEven(n, d, q)
    ensures n >= 0 ==> q >= 0
    ensures n <= 0 ==> q <= 0
  {
    var f := n / d;
    var rem := n % d;
    assert n == f * d + rem;
    assert (f + 1) * d == f * d + d;
    if 2 * rem < d then f
    else if 2 * rem > d then f + 1
    else if f % 2 == 0 then f
    else f + 1
  }

  /** Two grid points at most one step apart are equal or neighbours. */
  lemma ScaledStep(k: int, d: int)
    requires d > 0
    requires -d <= k * d <= d
    ensures -1 <= k <= 1
  {
  }

  /** q * d is nearest to n, and even on a tie. */
  predicate RoundsHalfEven(n: int, d: int, q: int)
    requires d > 0
  {
    2 * Dist(n, q * d) <= d && (2 * Dist(n, q * d) == d ==> q % 2 == 0)
  }

  /** At most one grid point rounds n half to even. */
  lemma {:induction false} RoundsHalfEvenUnique(n: int, d: int, p: int, q: int)
    requires d > 0 && RoundsHalfEven(n, d, p) && RoundsHalfEven(n, d, q)
    ensures p == q
  {
    var k, a, b := q - p, q * d, p * d;
    assert a - b == k * d;
    ScaledStep(k, d);
    assert k == 1 ==> a - b == d;
    assert k == -1 ==> b - a == d;
  }

  /** The two clauses of Quantize's contract pin the result down: any q that is
      nearest to n / d and even on a tie is Quantize(n, d). */
  lemma QuantizeUnique(n: int, d: int, q: int)
    requires d > 0 && RoundsHalfEven(n, d, q)
    ensures q == Quantize(n, d)
  {
    RoundsHalfEvenUnique(n, d, Quantize(n, d), q);
  }

  /** A value already on the grid is left as it is. */
  lemma QuantizeExact(k: int, d: int)
    requires d > 0
    ensures Quantize(k * d, d) == k
  {
    QuantizeUnique(k * d, d, k);
  }
}
