/** The fixed-width Rust integer types that appear in the configuration. */
module Machine {

  /** `u32`. */
  type U32 = n: int | 0 <= n < 0x1_0000_0000

  /** `usize::MAX` on a 64-bit target. */
  const USIZE_MAX: int := 0xFFFF_FFFF_FFFF_FFFF

  /** `usize` on a 64-bit target. */
  type Usize = n: int | 0 <= n <= 0xFFFF_FFFF_FFFF_FFFF
}
