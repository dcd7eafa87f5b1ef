/** Failure-carrying wrappers used throughout the model. */
module Wrappers {

  /** A value that may be absent: an optional field of a TypeScript object. */
  datatype Option<+T> = None | Some(value: T) {

    /** The wrapped value, or `default` when absent (a destructuring default). */
    function GetOr(default: T): T
    {
      match this
      case Some(v) => v
      case None => default
    }
  }

  /** Either the value an awaited call resolves to, or the error it throws. */
  datatype Result<+R, +E> = Success(value: R) | Failure(error: E)
}
