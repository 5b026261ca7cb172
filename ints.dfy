/**
  The fixed-width integer types the program uses, as ranges of mathematical
  integers, and the two's-complement wrap-around of Rust's `as` casts.
*/
module Ints {
  const TWO_32: int := 0x1_0000_0000
  const TWO_64: int := 0x1_0000_0000_0000_0000

  type u8 = x: int | 0 <= x < 0x100
  type u16 = x: int | 0 <= x < 0x1_0000
  type u64 = x: int | 0 <= x < 0x1_0000_0000_0000_0000
  type i32 = x: int | -0x8000_0000 <= x < 0x8000_0000
  type i64 = x: int | -0x8000_0000_0000_0000 <= x < 0x8000_0000_0000_0000

  predicate InI32(x: int) { -0x8000_0000 <= x < 0x8000_0000 }
  predicate InI64(x: int) { -0x8000_0000_0000_0000 <= x < 0x8000_0000_0000_0000 }

  /** `x as i32`: the i32 congruent to `x` modulo 2^32. */
  function WrapI32(x: int): (r: i32)
    ensures (r - x) % TWO_32 == 0
    ensures InI32(x) ==> r == x
  {
    var m := (x + 0x8000_0000) % TWO_32;
    m - 0x8000_0000
  }

  /** `x as i64` (and wrapping i64 arithmetic): the i64 congruent to `x` modulo 2^64. */
  function WrapI64(x: int): (r: i64)
    ensures (r - x) % TWO_64 == 0
    ensures InI64(x) ==> r == x
  {
    var m := (x + 0x8000_0000_0000_0000) % TWO_64;
    m - 0x8000_0000_0000_0000
  }
}
