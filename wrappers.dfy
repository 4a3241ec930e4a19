/** Optional values and results with an error, as used by the rest of the model. */
module Wrappers {

  /** A value that may be absent: JavaScript's `undefined` field, Python's missing key. */
  datatype Option<+T> = None | Some(value: T) {

    /** The value, or `default` when absent. */
    function GetOr(default: T): T {
      match this
      case Some(v) => v
      case None => default
    }
  }

  /** The outcome of an operation that can raise. */
  datatype Result<+R, +E> = Success(value: R) | Failure(error: E)
}
