/** The fixed-width integer types of the Rust source. */
module Numeric {

  const U8_LIMIT := 0x100
  const U16_LIMIT := 0x1_0000
  const U32_LIMIT := 0x1_0000_0000

  newtype u8 = x: int | 0 <= x < U8_LIMIT
  newtype u16 = x: int | 0 <= x < U16_LIMIT
  newtype u32 = x: int | 0 <= x < U32_LIMIT

  /** `u32::MAX` */
  const U32_MAX: u32 := (U32_LIMIT - 1) as u32

  type Bytes = seq<u8>

  /** The smaller of two lengths (Rust's `usize::min`). */
  function Min(a: nat, b: nat): nat {
    if a <= b then a else b
  }
}
