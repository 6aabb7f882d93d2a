/** Option and Result datatypes used throughout the model. */
module Wrappers {

  /** A value that may be absent: JavaScript's `null` or `undefined`. */
  datatype Option<+T> = None | Some(value: T) {
    function GetOr(default: T): T {
      match this
      case Some(v) => v
      case None => default
    }
  }

  /** A settled promise: resolved with a value, or rejected with an error message. */
  datatype Result<+R> = Success(value: R) | Failure(error: string)
}
