/**
 * The parts of JavaScript number semantics the widget relies on:
 * `v | 0` and `v << 0` convert a number with ECMAScript ToInt32, which
 * truncates toward zero and then wraps into the signed 32-bit range.
 * Numbers are exact reals here; NaN and the infinities are not modelled.
 */
module JsNumber {

  const TWO_31: int := 0x8000_0000
  const TWO_32: int := 0x1_0000_0000

  function Abs(r: real): real {
    if r < 0.0 then -r else r
  }

  /** Truncation toward zero. */
  function Trunc(r: real): (n: int)
    ensures 0.0 <= r ==> 0 <= n && n as real <= r < n as real + 1.0
    ensures r < 0.0 ==> n <= 0 && n as real - 1.0 < r <= n as real
    ensures Abs(n as real) <= Abs(r)
  {
    if r >= 0.0 then r.Floor else -((-r).Floor)
  }

  /** ECMAScript ToInt32 applied to an integer: reduce modulo 2^32 into [-2^31, 2^31). */
  function ToInt32(n: int): (r: int)
    ensures -TWO_31 <= r < TWO_31
    ensures (r - n) % TWO_32 == 0
    ensures -TWO_31 <= n < TWO_31 ==> r == n
    ensures Abs(r as real) <= Abs(n as real)
  {
    (n + TWO_31) % TWO_32 - TWO_31
  }

  /** The value of `v | 0` (and of `v << 0`) for a finite number `v`. */
  function OrZero(v: real): (r: int)
    ensures -TWO_31 <= r < TWO_31
    ensures Abs(r as real) <= Abs(v)
    ensures -(TWO_31 as real) <= v < TWO_31 as real ==> r == Trunc(v)
    ensures v == v.Floor as real && -TWO_31 <= v.Floor < TWO_31 ==> r == v.Floor
  {
    ToInt32(Trunc(v))
  }
}
