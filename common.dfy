/** Plain option and result datatypes, and the fixed-width integer ranges used by the model. */
module Common {

  datatype Option<+T> = None | Some(value: T)

  datatype Result<+T, +E> = Ok(value: T) | Err(error: E)

  /** An 8-bit byte of a message payload. */
  type byte = x: int | 0 <= x < 0x100

  /** Rust's `i32` (a Kafka partition number). */
  type i32 = x: int | -0x8000_0000 <= x < 0x8000_0000

  /** Rust's `i64` (a Kafka offset). */
  type i64 = x: int | -0x8000_0000_0000_0000 <= x < 0x8000_0000_0000_0000

  /** Rust's `u32` (a pool's maximum number of connections). */
  type u32 = x: int | 0 <= x < 0x1_0000_0000
}
