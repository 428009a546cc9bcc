/** Failure-compatible Option and Result types, usable with `:-`. */
module Wrappers {

  /** An optional value: `None` stands for an absent or invalid result. */
  datatype Option<+T> = None | Some(value: T) {

    /** Converts to a Result, failing with `error` when None. */
    function ToResult<E>(error: E): Result<T, E> {
      match this
      case Some(v) => Success(v)
      case None => Failure(error)
    }
  }

  /** Either a computed value or the error that stopped the computation. */
  datatype Result<+T, +E> = Success(value: T) | Failure(error: E) {

    predicate IsFailure() {
      Failure?
    }

    function PropagateFailure<U>(): Result<U, E>
      requires Failure?
    {
      Failure(error)
    }

    function Extract(): T
      requires Success?
    {
      value
    }
  }
}
