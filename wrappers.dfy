/** Failure-carrying values shared by every module of the model. */
module Wrappers {

  /** A value that may be absent: Go's nil pointer, JavaScript's undefined. */
  datatype Option<+T> = None | Some(value: T) {
    function GetOr(default: T): T {
      match this
      case Some(v) => v
      case None => default
    }
  }

  /** A Go `(value, error)` pair where exactly one side is meaningful. */
  datatype Result<+R, +E> = Success(value: R) | Failure(error: E)
}
