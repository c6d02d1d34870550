/** Rust's unsigned 32-bit integers, as a subset of `int`. */
module Integers {
  const U32_LIMIT: int := 0x1_0000_0000

  type u32 = x: int | 0 <= x < U32_LIMIT
}
