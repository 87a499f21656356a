/** Failure-compatible wrappers shared by the cart model. */
module Wrappers {

  /** A value that may be absent (JavaScript's `undefined` / `null`). */
  datatype Option<+T> = None | Some(value: T) {

    /** The held value, or `default` when absent. */
    function GetOr(default: T): T {
      match this
      case Some(v) => v
      case None => default
    }
  }

  /** The settled state of a promise or a synchronous call that may throw. */
  datatype Result<+T, +E> = Ok(value: T) | Err(error: E)
}
