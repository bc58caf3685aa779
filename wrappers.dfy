/** The Option and Result wrappers used throughout the model. */
module Wrappers {

  /** A value that may be absent, as Rust's `Option`. */
  datatype Option<+T> = None | Some(value: T) {

    /** The value, or `default` when absent (Rust's `unwrap_or`). */
    function GetOr(default: T): T {
      match this
      case Some(v) => v
      case None => default
    }
  }

  /** A value or an error, as Rust's `Result`. */
  datatype Result<+T, +E> = Ok(value: T) | Err(error: E)
}
