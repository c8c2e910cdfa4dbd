/** Optional values and success/failure results shared by the whole model. */
module Wrappers {

  /** A value that may be absent: `null` / `undefined` in the original program. */
  datatype Option<+T> = None | Some(value: T) {

    /** The carried value, or `default` when there is none (the `??` operator). */
    function GetOr(default: T): T {
      match this
      case Some(v) => v
      case None => default
    }
  }

  /** The outcome of an operation that may throw. */
  datatype Result<+R, +E> = Success(value: R) | Failure(error: E)
}
