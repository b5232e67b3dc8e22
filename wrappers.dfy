/** Option and Result, the two failure-carrying shapes the handlers use. */
module Wrappers {

  datatype Option<+T> = None | Some(value: T) {
    /** The value in Some, or the given default (Rust's `unwrap_or`). */
    function GetOr(default: T): T {
      match this
      case Some(v) => v
      case None => default
    }
  }

  datatype Result<+R, +E> = Ok(value: R) | Err(error: E)
}
