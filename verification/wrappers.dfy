/** Failure-compatible Option and Result types used throughout the model. */
module Wrappers {

  datatype Option<+T> = None | Some(value: T) {

    /** The contained value, or `default` when there is none (JavaScript's `x || default`). */
    function GetOr(default: T): T {
      if Some? then value else default
    }
  }

  /** A computation that either yields a value or throws an exception. */
  datatype Result<+T, +E> = Success(value: T) | Failure(error: E) {

    predicate IsFailure() {
      Failure?
    }

    function PropagateFailure<U>(): Result<U, E>
      requires Failure?
    {
      Failure(error)
    }

    function Extract(): T
      requires Success?
    {
      value
    }
  }
}
