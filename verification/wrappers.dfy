/** Optional values and results, standing for JavaScript's `undefined` and for thrown errors. */
module Wrappers {

  /** An absent (`undefined`) or present value. */
  datatype Option<+T> = None | Some(value: T) {

    /** The destructuring default `x = d`: applies only when the value is absent. */
    function GetOr(default: T): T {
      match this
      case Some(v) => v
      case None => default
    }
  }

  /** The outcome of a call that may throw. */
  datatype Result<+R, +E> = Success(value: R) | Failure(error: E)
}
