/** Rust's `Option` and `Result`, shared by the model. */
module Wrappers {

  datatype Option<+T> = None | Some(value: T) {
    /** Rust's `unwrap_or`. */
    function GetOr(default: T): T {
      match this
      case Some(v) => v
      case None => default
    }
  }

  /** Rust's `Result`; errors are carried as their display text. */
  datatype Result<+T, +E> = Ok(value: T) | Err(error: E)
}
