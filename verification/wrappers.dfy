/** Option and Result, the two failure-carrying types the model uses. */
module Wrappers {

  /** A value that may be absent: the model of an optional field or an `undefined` lookup. */
  datatype Option<+T> = None | Some(value: T) {
    function GetOr(default: T): T {
      match this
      case Some(v) => v
      case None => default
    }
  }

  /** The outcome of an operation that can fail with an error value. */
  datatype Result<+R, +E> = Success(value: R) | Failure(error: E)
}
