/** The value types that stand for Rust's `Option`, `Result` and `()`. */
module Wrappers {

  /** Rust's unit type `()`. */
  datatype Unit = Unit

  datatype Option<+T> = None | Some(value: T)

  datatype Result<+T, +E> = Ok(value: T) | Err(error: E)

  /** A `Result<(), E>`: success carries nothing. */
  datatype Outcome<+E> = Pass | Fail(error: E)
}
