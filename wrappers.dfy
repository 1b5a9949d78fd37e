/** Failure-carrying datatypes shared by every module of the model. */
module Wrappers {

  /** Rust's `Option<T>`. */
  datatype Option<+T> = None | Some(value: T)

  /** Rust's `anyhow::Result<T>`: a value or an error message. */
  datatype Result<+T> = Ok(value: T) | Err(message: string)

  /** The unit value `()`. */
  datatype Unit = Unit

  /**
   * A computation that either finishes or panics (an `unwrap` on `None`,
   * a `todo!()`, or an integer overflow of a debug build). A panic is not a
   * value the caller can inspect; the model keeps it apart from `Result`.
   */
  datatype Run<+T> = Returns(value: T) | Panics(reason: string)

  const U32_MAX: int := 0xFFFF_FFFF

  /** The range of Rust's `u32`. */
  predicate IsU32(x: int) { 0 <= x <= U32_MAX }
}
