/** Failure-compatible Option and Result types, usable with `:-`. */
module Wrappers {

  datatype Option<+T> = None | Some(value: T) {

    /** Turns a missing value into a failure carrying `error`. */
    function ToResult<E>(error: E): Result<T, E>
    {
      match this
      case Some(v) => Success(v)
      case None => Failure(error)
    }
  }

  datatype Result<+R, +E> = Success(value: R) | Failure(error: E) {

    predicate IsFailure() {
      Failure?
    }

    function PropagateFailure<U>(): Result<U, E>
      requires Failure?
    {
      Failure(error)
    }

    function Extract(): R
      requires Success?
    {
      value
    }

    /** Re-labels the error of a failure; a success is kept as it is. */
    function MapFailure<F>(relabel: E -> F): Result<R, F>
    {
      match this
      case Success(v) => Success(v)
      case Failure(e) => Failure(relabel(e))
    }
  }
}
