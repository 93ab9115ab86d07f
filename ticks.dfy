/** The wrap-safe time step of `IMUUpdate`: the microsecond counter is a
    `uint32_t` that wraps, and the filter turns two readings of it into
    the half-period `halfT` in seconds. All `uint32_t` arithmetic is
    written out modulo 2^32, so that "no overflow" is a statement the
    model proves rather than a property of the integer type. */
module Ticks {

  const Modulus: int := 0x1_0000_0000

  /** `0xFFFFFFFF`, the largest `uint32_t`. */
  const U32Max: int := 0xFFFF_FFFF

  type U32 = x: int | 0 <= x < Modulus

  /** C `a - b` on `uint32_t`: wraps modulo 2^32. */
  function Sub32(a: U32, b: U32): U32 {
    (a - b) % Modulus
  }

  /** C `a + b` on `uint32_t`: wraps modulo 2^32. */
  function Add32(a: U32, b: U32): U32 {
    (a + b) % Modulus
  }

  /** Ticks between `last` and `current` as `IMUUpdate` counts them:
      `Current - LastUpdate` when the counter has not wrapped, and
      `Current + (0xFFFFFFFF - LastUpdate)` when it has. Neither branch
      ever wraps, so the result is the plain integer difference. */
  function TickCount(current: U32, last: U32): (r: U32)
    ensures current >= last ==> r == current - last
    ensures current < last ==> r == current + U32Max - last
  {
    if current >= last then Sub32(current, last) else Add32(current, Sub32(U32Max, last))
  }

  /** The true number of ticks from `last` to `current` on a counter that
      wraps at 2^32: the unique count below 2^32 that carries `last` to
      `current`. */
  function ElapsedTicks(current: U32, last: U32): (r: U32)
    ensures Add32(last, r) == current
  {
    Sub32(current, last)
  }

  /** Only one count below 2^32 carries `last` to `current`. */
  lemma ElapsedTicksUnique(current: U32, last: U32, k: U32)
    requires Add32(last, k) == current
    ensures k == ElapsedTicks(current, last)
  {
    if k + last < Modulus {
      assert current == k + last;
    } else {
      assert current == k + last - Modulus;
    }
  }

  /** In the wrapped branch `IMUUpdate` adds `0xFFFFFFFF - LastUpdate`
      where 2^32 - LastUpdate is the distance to the wrap, so its count is
      one tick short of the true elapsed count; without a wrap it is exact. */
  lemma TickCountVersusElapsed(current: U32, last: U32)
    ensures current >= last ==> TickCount(current, last) == ElapsedTicks(current, last)
    ensures current < last ==> TickCount(current, last) + 1 == ElapsedTicks(current, last)
    ensures current < last ==> TickCount(current, last) == Modulus + current - last - 1
  {
  }

  /** The concrete wrap from 0xFFFFFFF0 to 0x10: 32 ticks have passed,
      `IMUUpdate` counts 31. */
  lemma WrapExample()
    ensures ElapsedTicks(0x10, 0xFFFF_FFF0) == 32
    ensures TickCount(0x10, 0xFFFF_FFF0) == 31
  {
  }

  /** `halfT`: the tick count over 2000000, i.e. half the elapsed time in
      seconds for a microsecond counter. */
  function HalfPeriod(ticks: U32): (r: real)
    ensures 0.0 <= r < 2148.0
    ensures r * 2000000.0 == ticks as real
  {
    ticks as real / 2000000.0
  }
}
