/** The C integer widths the drivers compute with. */
module CTypes {

  /** C's uint32_t as a range of mathematical integers. */
  type uint32 = x: int | 0 <= x < 0x1_0000_0000

  /** C's uint16_t as a range of mathematical integers. */
  type uint16 = x: int | 0 <= x < 0x1_0000
}
