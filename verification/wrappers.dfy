/** Failure-compatible wrappers used by every other module of the model. */
module Wrappers {

  /** An optional value: a header that may be absent. */
  datatype Option<+T> = None | Some(value: T) {

    /** The carried value, or `default` when absent. */
    function GetOr(default: T): T {
      match this
      case Some(v) => v
      case None => default
    }
  }

  /** Either the result of an operation or the error it raised. */
  datatype Result<+R, +E> = Success(value: R) | Failure(error: E)
}
