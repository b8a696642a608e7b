/** Optional values and success/failure outcomes, used wherever the source
    has an optional field, a `null`, or an operation that may throw. */
module Wrappers {

  datatype Option<+T> = None | Some(value: T) {
    /** The value, or `default` when absent (the `??` operator). */
    function GetOr(default: T): T {
      match this
      case Some(v) => v
      case None => default
    }
  }

  /** The outcome of an operation that either returns a value or throws. */
  datatype Result<+T, +E> = Success(value: T) | Failure(error: E)
}
