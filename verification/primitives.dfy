/** Fixed-width integer types of the Rust source. Only comparisons are made on them. */
module Primitives {

  /** Rust `i32`: user and paste ids. */
  newtype i32 = x: int | -0x8000_0000 <= x < 0x8000_0000

  /** Rust `u8`: bytes of salts, passwords and digests. */
  newtype u8 = x: int | 0 <= x < 0x100

  /** Rust `u16`: HTTP status codes. */
  newtype u16 = x: int | 0 <= x < 0x1_0000

  type bytes = seq<u8>
}
