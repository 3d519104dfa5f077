/** Optional values, standing for JavaScript's `null` / `undefined` versus a present value. */
module Wrappers {

  datatype Option<+T> = None | Some(value: T) {

    /** The value, or `default` when absent (JavaScript's `x || default` for objects). */
    function GetOr(default: T): T {
      match this
      case Some(v) => v
      case None => default
    }
  }

  /** Either a value or an error message (a thrown `Error` in the source). */
  datatype Result<+R, +E> = Success(value: R) | Failure(error: E)
}
