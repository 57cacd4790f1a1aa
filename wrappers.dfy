/** Option and Result values used for the "not found" and error paths of the store. */
module Wrappers {

  datatype Option<+T> = None | Some(value: T) {
    /** The carried value, or `default` when there is none (JavaScript's `x ?? d`). */
    function GetOr(default: T): T {
      match this
      case Some(v) => v
      case None => default
    }
  }

  /** A thrown `Error` is modelled as `Failure` with its message. */
  datatype Result<+R, +E> = Success(value: R) | Failure(error: E)
}
