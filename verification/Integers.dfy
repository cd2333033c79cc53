/** Machine integers, shared by the other modules. */
module Integers {

  const TWO_63 := 0x8000_0000_0000_0000
  const MAX_INT := 0x7FFF_FFFF_FFFF_FFFF

  /** A 64-bit signed integer. */
  type Int64 = x: int | -TWO_63 <= x < TWO_63

  type Byte = x: int | 0 <= x < 256

  /** Two's complement wrap-around. */
  function Wrap(x: int): Int64 {
    (x + TWO_63) % (2 * TWO_63) - TWO_63
  }
}
