/** The fixed-width unsigned integers of the program, as bounded subsets of `int`. */
module Ints {

  type byte = x: int | 0 <= x < 0x100
  type u16 = x: int | 0 <= x < 0x1_0000
  type u64 = x: int | 0 <= x < 0x1_0000_0000_0000_0000

  const MAX_U64: int := 0xFFFF_FFFF_FFFF_FFFF
}
