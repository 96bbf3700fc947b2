/** Optional values and results with an error message, standing for Go's
    nil pointers and `(value, error)` return pairs. */
module Wrappers {

  datatype Option<+T> = None | Some(value: T) {
    function GetOr(default: T): T {
      match this
      case Some(v) => v
      case None => default
    }
  }

  /** A Go `(value, error)` pair where exactly one side is non-nil; the error is
      kept as the text `err.Error()` would print. */
  datatype Result<+T> = Success(value: T) | Failure(error: string)
}
