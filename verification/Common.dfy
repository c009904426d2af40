/** Small shared vocabulary: optional values and machine words. */
module Common {
  datatype Option<+T> = None | Some(value: T)

  const U64_MAX: int := 0xFFFF_FFFF_FFFF_FFFF

  /** An unsigned 64-bit word. */
  type u64 = x: int | 0 <= x <= 0xFFFF_FFFF_FFFF_FFFF
}
