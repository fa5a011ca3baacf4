/**
 * Java's fixed-width integers and the one piece of Java arithmetic the events
 * rely on: `long` subtraction, which wraps around modulo 2^64.
 */
module Primitives {
  const TWO_31: int := 0x8000_0000
  const TWO_32: int := 0x1_0000_0000
  const TWO_63: int := 0x8000_0000_0000_0000
  const TWO_64: int := 0x1_0000_0000_0000_0000

  /** Java `int`. */
  newtype i32 = x: int | -0x8000_0000 <= x < 0x8000_0000
  /** Java `long`, used for every timestamp. */
  newtype i64 = x: int | -0x8000_0000_0000_0000 <= x < 0x8000_0000_0000_0000
  /** An unsigned octet of a byte array. */
  newtype byte = x: int | 0 <= x < 256

  /** Two's-complement truncation of an unbounded integer to 64 bits. */
  function WrapLong(x: int): (r: i64)
    ensures (r as int - x) % TWO_64 == 0
    ensures -TWO_63 <= x < TWO_63 ==> r as int == x
  {
    ((x + TWO_63) % TWO_64 - TWO_63) as i64
  }

  /** Java's `a - b` on `long`: exact when the difference fits, wrapped otherwise. */
  function LongSub(a: i64, b: i64): (r: i64)
    ensures -TWO_63 <= a as int - b as int < TWO_63 ==> r as int == a as int - b as int
    ensures (r as int - (a as int - b as int)) % TWO_64 == 0
  {
    WrapLong(a as int - b as int)
  }

  /** Between two non-negative timestamps, start before finish, `long` subtraction never wraps. */
  lemma LongSubOfOrderedTimes(start: i64, finish: i64)
    requires 0 <= start <= finish
    ensures LongSub(finish, start) as int == finish as int - start as int
    ensures LongSub(finish, start) >= 0
  {
  }
}
