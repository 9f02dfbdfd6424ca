/**
 * C++ arithmetic on the platform's integer and floating-point types, over
 * Dafny's unbounded numbers: division and remainder truncating towards
 * zero, conversion to a 32-bit int, and float-to-int truncation.
 */
module Numeric {
  import opened Json

  /** A float converted to int: the fraction is dropped, towards zero. */
  function Truncate(r: real): (t: int)
    ensures 0.0 <= r ==> t as real <= r < t as real + 1.0
    ensures r < 0.0 ==> t as real - 1.0 < r <= t as real
  {
    if 0.0 <= r then r.Floor else -((-r).Floor)
  }

  function Abs(n: int): nat {
    if n < 0 then -n else n
  }

  /** Integer division truncating towards zero. */
  function CDiv(a: int, b: int): (q: int)
    requires b > 0
    ensures 0 <= a ==> q == a / b
    ensures a < 0 ==> q == -((-a) / b)
  {
    if 0 <= a then a / b else -((-a) / b)
  }

  /** The remainder that goes with CDiv: it has the sign of a. */
  function CMod(a: int, b: int): (r: int)
    requires b > 0
    ensures a == CDiv(a, b) * b + r
    ensures 0 <= a ==> 0 <= r < b
    ensures a < 0 ==> -b < r <= 0
  {
    a - CDiv(a, b) * b
  }

  const TwoTo32: int := 0x1_0000_0000

  /** static_cast<int> of a 64-bit value: the low 32 bits, as two's
    * complement. */
  function ToInt32(a: int): (r: int)
    ensures IsInt32(r)
    ensures IsInt32(a) ==> r == a
    ensures (r - a) % TwoTo32 == 0
  {
    (a - INT32_MIN) % TwoTo32 + INT32_MIN
  }

}
