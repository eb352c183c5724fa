/**
 * Real-number helpers standing for Python's builtins `abs`, `min`, `max`
 * and the `min(1.0, max(0.0, x))` clamp, plus the contract a square-root
 * routine (Python's `math.sqrt`) has to meet.
 */
module Numeric {

  function Abs(x: real): (r: real)
    ensures 0.0 <= r && (r == x || r == -x)
  {
    if x < 0.0 then -x else x
  }

  function Min(a: real, b: real): (r: real)
    ensures r <= a && r <= b && (r == a || r == b)
  {
    if a <= b then a else b
  }

  function Max(a: real, b: real): (r: real)
    ensures a <= r && b <= r && (r == a || r == b)
  {
    if a >= b then a else b
  }

  /** `max(0, n - 1)`: how many of `n` items come after the first. */
  function BeyondFirst(n: int): (r: nat)
    ensures n <= 1 ==> r == 0
    ensures 1 <= n ==> r + 1 == n
  {
    if n <= 1 then 0 else n - 1
  }

  /** `min(1.0, max(0.0, x))`: the value pulled into the unit interval. */
  function Clamp01(x: real): (r: real)
    ensures 0.0 <= r <= 1.0
    ensures 0.0 <= x <= 1.0 ==> r == x
    ensures x < 0.0 ==> r == 0.0
    ensures 1.0 < x ==> r == 1.0
  {
    Min(1.0, Max(0.0, x))
  }

  /**
   * What the model assumes of the square-root routine the rolling window
   * calls: on a non-negative argument it returns a non-negative number
   * whose square is the argument (stated as two inequalities, which the
   * solver handles better than an equation between products).
   * The routine itself is a parameter of the operations that need it.
   */
  ghost predicate IsSqrt(sqrt: real -> real)
  {
    forall v {:trigger sqrt(v)} :: 0.0 <= v ==> 0.0 <= sqrt(v) && v <= sqrt(v) * sqrt(v) <= v
  }

  lemma SquarePositive(r: real)
    requires 0.0 < r
    ensures 0.0 < r * r
  {
  }

  /** The root of zero is zero: a constant series has standard deviation 0. */
  lemma SqrtOfZero(sqrt: real -> real)
    requires IsSqrt(sqrt)
    ensures sqrt(0.0) == 0.0
  {
    var r := sqrt(0.0);
    assert 0.0 <= r && r * r <= 0.0;
    if r > 0.0 {
      SquarePositive(r);
    }
  }
}
