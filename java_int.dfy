/**
 * Java's 32-bit `int` and its integer division and remainder, which round the
 * quotient toward zero. Dafny's own `/` and `%` are Euclidean, so the two only
 * agree on non-negative operands.
 */
module JavaInt {

  /** The values a Java `int` can hold. */
  type Int32 = x: int | -0x8000_0000 <= x < 0x8000_0000

  /** Java's `a / b` for a positive divisor: the exact quotient rounded toward zero. */
  function Div(a: int, b: int): (q: int)
    requires b > 0
    ensures 0 <= a ==> 0 <= b * q <= a < b * q + b
    ensures a < 0 ==> b * q - b < a <= b * q <= 0
  {
    if a >= 0 then
      EuclidBounds(a, b);
      a / b
    else
      EuclidBounds(-a, b);
      -((-a) / b)
  }

  /** Java's `a % b` for a positive divisor: the remainder takes the sign of `a`. */
  function Rem(a: int, b: int): (r: int)
    requires b > 0
    ensures a == b * Div(a, b) + r
    ensures 0 <= a ==> 0 <= r < b
    ensures a < 0 ==> -b < r <= 0
  {
    if a >= 0 then a % b else -((-a) % b)
  }

  lemma EuclidBounds(a: nat, b: int)
    requires b > 0
    ensures 0 <= b * (a / b) <= a < b * (a / b) + b
  {
  }
}
