/** Option and Result, the failure-compatible wrappers used across the model. */
module Wrappers {

  datatype Option<+T> = None | Some(value: T) {
    function GetOr(default: T): T {
      match this
      case Some(v) => v
      case None => default
    }
  }

  /** A JS call that either returns a value or throws an error. */
  datatype Result<+T, +E> = Ok(value: T) | Err(error: E)
}
