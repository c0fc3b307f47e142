/** Machine-word types shared by every component. Bytes are `bv8` and register
    pairs `bv16`; a CPU address is an unsigned 16-bit integer. */
module Bytes {

  /** A 16-bit CPU address (`u16`). */
  type u16 = x: int | 0 <= x < 0x1_0000

  /** A 32-bit unsigned counter (`u32`). */
  type u32 = x: int | 0 <= x < 0x1_0000_0000

  /** Bit `j` of `x`, counting from the least significant bit. */
  predicate BitSet(x: bv8, j: nat)
    requires j < 8
  {
    (x >> j) & 1 == 1
  }
}
