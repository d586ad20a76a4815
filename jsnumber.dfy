/**
 * The few JavaScript number operations the chart code relies on, on Dafny's
 * unbounded `int` and exact `real`.  Values are assumed to stay within the
 * 32-bit range wherever the source applies `| 0`, so the wrap-around of
 * ToInt32 never happens and `| 0` is truncation toward zero.
 */
module JsNumber {

  datatype Option<T> = None | Some(value: T)

  /** `v | 0` for a finite `v` inside the 32-bit range: truncation toward zero. */
  function Trunc(v: real): (n: int)
    ensures 0.0 <= v ==> 0 <= n && n as real <= v < n as real + 1.0
    ensures v < 0.0 ==> n <= 0 && n as real - 1.0 < v <= n as real
  {
    if v >= 0.0 then v.Floor else -((-v).Floor)
  }

  /**
   * `(a / b) | 0`.  With `b == 0` the quotient is NaN or an infinity, and
   * `| 0` maps both to 0.
   */
  function DivTrunc(a: real, b: real): (n: int)
    ensures b == 0.0 ==> n == 0
    ensures b != 0.0 ==> n == Trunc(a / b)
  {
    if b == 0.0 then 0 else Trunc(a / b)
  }

  /** The store into a Uint8ClampedArray of an integer value. */
  function Clamp8(n: int): (b: int)
    ensures 0 <= b < 256
    ensures 0 <= n < 256 ==> b == n
    ensures n < 0 ==> b == 0
    ensures 256 <= n ==> b == 255
  {
    if n < 0 then 0 else if n > 255 then 255 else n
  }

  function Max(a: real, b: real): real { if a < b then b else a }
  function Min(a: real, b: real): real { if a < b then a else b }

  lemma TruncOfInt(n: int)
    ensures Trunc(n as real) == n
  {
  }

  lemma TruncWithin(v: real, n: int)
    requires 0.0 <= v <= n as real
    ensures 0 <= Trunc(v) <= n
  {
  }

  /** A share `f` in [0, 1] of a nonnegative `a`, named `p`, lies in [0, a]. */
  lemma ScaleDown(a: real, f: real, p: real)
    requires 0.0 <= a && 0.0 <= f <= 1.0 && p == a * f
    ensures 0.0 <= p <= a
  {
    assert a - a * f == a * (1.0 - f);
  }

  lemma TruncMonotone(a: real, b: real)
    requires a <= b
    ensures Trunc(a) <= Trunc(b)
  {
  }
}
