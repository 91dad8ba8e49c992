/**
 * Scalar helpers with the semantics of the standard-library routines the robot code calls:
 * Kotlin's `absoluteValue`, `sign`, `min` and `/` on `Int`, and Python's `int()` on a float.
 */
module Numerics {

  function Abs(x: real): (r: real)
    ensures r >= 0.0
    ensures r == x || r == -x
  {
    if x < 0.0 then -x else x
  }

  function Min(a: int, b: int): (r: int)
    ensures r <= a && r <= b
    ensures r == a || r == b
  {
    if a <= b then a else b
  }

  /** `kotlin.math.sign` on a non-NaN double: -1.0, 0.0 or 1.0. */
  function Sign(x: real): (r: real)
    ensures r * x == Abs(x)
    ensures r == 0.0 <==> x == 0.0
    ensures r == 1.0 || r == 0.0 || r == -1.0
  {
    if x > 0.0 then 1.0 else if x < 0.0 then -1.0 else 0.0
  }

  /** Kotlin's `/` on `Int` with a positive divisor: the quotient rounded toward zero. */
  function IntDiv(a: int, b: int): (q: int)
    requires b > 0
    ensures a >= 0 ==> q >= 0 && q * b <= a < q * b + b
    ensures a < 0 ==> q <= 0 && q * b - b < a <= q * b
  {
    if a >= 0 then a / b else -((-a) / b)
  }

  /** Python's `int()` applied to a float: rounds toward zero. */
  function Truncate(v: real): (r: int)
    ensures v >= 0.0 ==> r >= 0 && r as real <= v < r as real + 1.0
    ensures v < 0.0 ==> r <= 0 && r as real - 1.0 < v <= r as real
  {
    if v >= 0.0 then v.Floor else -((-v).Floor)
  }
}
