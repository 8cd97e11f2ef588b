/** Fixed-width integers of the program and Rust's `as` casts between them. */
module Numeric {

  const TWO_64: int := 0x1_0000_0000_0000_0000
  const U64_MAX: int := 0xFFFF_FFFF_FFFF_FFFF
  const I64_MIN: int := -0x8000_0000_0000_0000
  const I64_MAX: int := 0x7FFF_FFFF_FFFF_FFFF

  type Byte = b: int | 0 <= b < 256
  type Bytes = seq<Byte>

  type U64 = x: int | 0 <= x <= 0xFFFF_FFFF_FFFF_FFFF
  type I64 = x: int | -0x8000_0000_0000_0000 <= x <= 0x7FFF_FFFF_FFFF_FFFF

  predicate InI64(x: int) {
    I64_MIN <= x <= I64_MAX
  }

  /** `x as i64` for a u64: the same 64 bits read in two's complement. */
  function U64AsI64(x: U64): (r: I64)
    ensures (x - r) % TWO_64 == 0
    ensures x <= I64_MAX ==> r == x
    ensures x > I64_MAX ==> r < 0
  {
    if x <= I64_MAX then x else x - TWO_64
  }

  /** `x as u64` for an i64: the same 64 bits read as unsigned. */
  function I64AsU64(x: I64): (r: U64)
    ensures (r - x) % TWO_64 == 0
    ensures x >= 0 ==> r == x
    ensures x < 0 ==> r > I64_MAX
  {
    if x >= 0 then x else x + TWO_64
  }

  /** `i64::max`. */
  function Max(a: int, b: int): (r: int)
    ensures r >= a && r >= b
    ensures r == a || r == b
  {
    if a >= b then a else b
  }
}
