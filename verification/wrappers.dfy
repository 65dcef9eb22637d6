/** Optional values and failure-carrying results, usable with `:-`. */
module Wrappers {

  datatype Option<+T> = None | Some(value: T) {
    /** The wrapped value, or `default` when there is none (Python's `dict.get(k, default)`). */
    function GetOr(default: T): T {
      match this
      case Some(v) => v
      case None => default
    }
  }

  datatype Result<+R, +E> = Success(value: R) | Failure(error: E) {
    predicate IsFailure() {
      Failure?
    }

    function PropagateFailure<U>(): Result<U, E>
      requires Failure?
    {
      Failure(error)
    }

    function Extract(): R
      requires Success?
    {
      value
    }
  }
}
