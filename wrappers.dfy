/** Absent-or-present values and success-or-failure results. */
module Wrappers {

  /** A value that may be absent: JavaScript's `T | undefined`. */
  datatype Option<+T> = None | Some(value: T) {

    /** The value when present, otherwise `default`. */
    function GetOr(default: T): T {
      match this
      case Some(v) => v
      case None => default
    }
  }

  /** The outcome of validating a request: a typed value or the violated constraint. */
  datatype Result<+T, +E> = Success(value: T) | Failure(error: E)
}
