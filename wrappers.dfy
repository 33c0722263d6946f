/** Optional values and error returns shared by the icon service and the pivot strategies. */
module Wrappers {

  /** A value that may be missing: `undefined` in the modelled code. */
  datatype Option<+T> = None | Some(value: T) {

    /** The value, or `default` when it is missing (the `??` and default-parameter idiom). */
    function GetOr(default: T): T {
      match this
      case Some(v) => v
      case None => default
    }
  }

  /** The outcome of an operation that returns nothing but may throw. */
  datatype Outcome<+E> = Pass | Fail(error: E)

  /** The outcome of an operation that returns a value or throws. */
  datatype Result<+R, +E> = Success(value: R) | Failure(error: E)
}
