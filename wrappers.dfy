/** Optional values and results with an error side. */
module Wrappers {

  /** A value that may be absent (JavaScript's `undefined` for an optional field). */
  datatype Option<+T> = None | Some(value: T) {
    function GetOr(default: T): T {
      match this
      case Some(v) => v
      case None => default
    }
  }

  /** The outcome of an operation that may throw: the value, or what was thrown. */
  datatype Result<+T, +E> = Success(value: T) | Failure(error: E)
}
