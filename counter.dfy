/** A counter holding one signed 32-bit integer (`Counter` in src/counter/counter.rs).
    The counter is created at 0, read with `Get`, changed in place by `Increment`,
    `Add` and `Reset`, and asked for its parity with `IsEven`. */
module Counters {

  const I32_MIN: int := -0x8000_0000
  const I32_MAX: int := 0x7fff_ffff

  /** Rust's `i32`: the range of a two's-complement 32-bit integer. */
  newtype i32 = x: int | I32_MIN <= x <= I32_MAX

  predicate InI32(x: int) {
    I32_MIN <= x <= I32_MAX
  }

  /** Rust's `a % 2` on integers. Rust's `%` truncates the quotient toward zero, so
      the remainder takes the sign of the dividend: -1, 0 or 1, and the dividend minus
      the remainder is even. */
  function TruncRem2(a: int): (r: int)
    ensures -1 <= r <= 1
    ensures a >= 0 ==> r >= 0
    ensures a <= 0 ==> r <= 0
    ensures (a - r) % 2 == 0
  {
    if a >= 0 then a % 2 else -((-a) % 2)
  }

  /** Mathematical parity: `x` is even when 2 divides it, negative `x` included. */
  predicate IsEvenValue(x: int) {
    x % 2 == 0
  }

  class Counter {
    var value: i32

    /** `Counter::new`: a fresh counter at 0. */
    constructor ()
      ensures value == 0
    {
      value := 0;
    }

    /** `get`: the current value; a function, so it changes nothing. */
    function Get(): (r: i32)
      reads this
      ensures r == value
    {
      value
    }

    /** `increment`: one more than before. Rust's `+=` on `i32` panics or wraps at
        `i32::MAX`; the model makes staying in range the caller's obligation. The
        parity flips. */
    method Increment()
      requires value as int + 1 <= I32_MAX
      modifies this
      ensures value as int == old(value) as int + 1
      ensures IsEven() == !old(IsEven())
    {
      value := value + 1;
    }

    /** `add(n)`: the value moves by `n`, which may be negative (a decrement) or 0
        (no change); the sum must stay within `i32`. */
    method Add(n: i32)
      requires InI32(value as int + n as int)
      modifies this
      ensures value as int == old(value) as int + n as int
      ensures n == 0 ==> value == old(value)
      ensures n < 0 ==> value < old(value)
    {
      value := value + n;
    }

    /** `reset`: back to 0 whatever the value was, so a second reset changes nothing. */
    method Reset()
      modifies this
      ensures value == 0
    {
      value := 0;
    }

    /** `is_even`: computed with Rust's truncating `%`, and true exactly when the
        value is even in the mathematical sense, negative values included. */
    function IsEven(): (r: bool)
      reads this
      ensures r <==> IsEvenValue(value as int)
    {
      TruncRem2(value as int) == 0
    }
  }
}
