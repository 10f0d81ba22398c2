/**
 * Exact-real counterparts of the two rounding operations the estimator uses:
 * `math.ceil` and Python's built-in `round` (round half to even).
 * Floating-point representation error is not modelled; both act on exact reals.
 */
module Numerics {

  /** The least integer that is not below `x` (`math.ceil`). */
  function Ceil(x: real): (c: int)
    ensures x <= c as real < x + 1.0
  {
    -((-x).Floor)
  }

  /**
   * The integer nearest to `x`; a tie between two integers goes to the even one
   * (Python's `round` with no digits argument).
   */
  function Round(x: real): (n: int)
    ensures x - 0.5 <= n as real <= x + 0.5
    ensures (n as real == x - 0.5 || n as real == x + 0.5) ==> n % 2 == 0
  {
    var f := x.Floor;
    var frac := x - f as real;
    if frac < 0.5 then f
    else if frac > 0.5 then f + 1
    else if f % 2 == 0 then f
    else f + 1
  }

  /** The contract of `Round` pins its result down: no other integer meets it. */
  lemma RoundUnique(x: real, n: int)
    requires x - 0.5 <= n as real <= x + 0.5
    requires (n as real == x - 0.5 || n as real == x + 0.5) ==> n % 2 == 0
    ensures n == Round(x)
  {
  }

  lemma RoundOfInteger(k: int)
    ensures Round(k as real) == k
  {
  }

  lemma RoundMonotone(x: real, y: real)
    requires x <= y
    ensures Round(x) <= Round(y)
  {
  }

  lemma RoundNonNegative(x: real)
    requires 0.0 <= x
    ensures 0 <= Round(x)
  {
  }

  lemma CeilMonotone(x: real, y: real)
    requires x <= y
    ensures Ceil(x) <= Ceil(y)
  {
  }

  lemma ProductNonNegative(a: real, b: real)
    requires 0.0 <= a && 0.0 <= b
    ensures 0.0 <= a * b
  {
  }

  lemma ProductMonotone(a: real, x: real, y: real)
    requires 0.0 <= a && x <= y
    ensures a * x <= a * y
  {
    ProductNonNegative(a, y - x);
    assert a * y - a * x == a * (y - x);
  }

  lemma ProductCancel(x: real, y: real, n: real)
    requires n != 0.0
    ensures x * n == y * n <==> x == y
  {
    if x * n == y * n {
      assert x == x * n / n;
      assert y == y * n / n;
    }
  }

  lemma QuotientNonNegative(a: real, b: real)
    requires 0.0 <= a && 0.0 < b
    ensures 0.0 <= a / b
  {
  }

  lemma SquareMonotone(a: int, b: int)
    requires 0 <= a <= b
    ensures a * a <= b * b
  {
    assert a * a <= a * b;
    assert a * b <= b * b;
  }

  lemma TripleQuotientNonNegative(a: real, b: real, c: real, e: real)
    requires 0.0 <= a && 0.0 <= b && 0.0 <= c && 0.0 < e
    ensures 0.0 <= a * b * c / e
  {
    ProductNonNegative(a, b);
    ProductNonNegative(a * b, c);
    QuotientNonNegative(a * b * c, e);
  }

  lemma SquareNonNegative(a: int)
    ensures 0 <= a * a
  {
    if a < 0 {
      assert a * a == (-a) * (-a);
    }
  }
}
