/** Fixed-width integer ranges and the failure-carrying wrappers used across the model. */
module Basics {

  const U16_LIMIT: int := 0x1_0000
  const U32_LIMIT: int := 0x1_0000_0000
  const U64_LIMIT: int := 0x1_0000_0000_0000_0000

  type byte = x: int | 0 <= x < 256
  type u16 = x: int | 0 <= x < U16_LIMIT
  type u32 = x: int | 0 <= x < U32_LIMIT
  type u64 = x: int | 0 <= x < U64_LIMIT

  /** An optional value (Rust's `Option`). */
  datatype Option<+T> = None | Some(value: T)

  /** A value or an error (Rust's `Result`). */
  datatype Result<+T, +E> = Ok(value: T) | Err(error: E)
}
