/** Rust's unsigned integer types that the board code uses, as ranges of `int`. */
module Ints {
  newtype U8 = x: int | 0 <= x < 0x100
  newtype U16 = x: int | 0 <= x < 0x1_0000
  newtype U32 = x: int | 0 <= x < 0x1_0000_0000
}
