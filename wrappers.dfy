/** Rust's `Option` and `Result`, as the terminal grid uses them. */
module Wrappers {

  /** A grid cell: `None` is an unset cell, `Some(c)` holds a character. */
  datatype Option<+T> = None | Some(value: T)

  /** The outcome of an operation that can fail with an error value. */
  datatype Result<+R, +E> = Ok(value: R) | Err(error: E)
}
