/** Option and Result: the nullable values and the exceptions of the source, as values. */
module Wrappers {

  /** A value that may be absent (Java `null`, Python `None`). */
  datatype Option<+T> = None | Some(value: T) {
    function GetOr(default: T): T {
      match this
      case Some(v) => v
      case None => default
    }
  }

  /** The outcome of an operation that may abort with an exception. */
  datatype Result<+T, +E> = Success(value: T) | Failure(error: E)
}
