/** Optional values and fallible results, standing in for Kotlin's nullable
    types and for the exceptions the converters throw. */
module Wrappers {

  /** A Kotlin `T?`: either absent (`null`) or present. */
  datatype Option<+T> = None | Some(value: T) {
    /** Kotlin's `?:` with a plain default. */
    function GetOr(default: T): T {
      match this
      case Some(v) => v
      case None => default
    }
  }

  /** The outcome of a call that either returns a value or throws. */
  datatype Result<+R, +E> = Success(value: R) | Failure(error: E)
}
