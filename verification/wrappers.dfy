/** Failure-compatible wrappers used in place of the source's `undefined` results and thrown errors. */
module Wrappers {

  /** A value that may be absent (the source's `undefined`). */
  datatype Option<+T> = None | Some(value: T)

  /** Either a computed value or the error the source would throw. */
  datatype Result<+T, +E> = Success(value: T) | Failure(error: E) {

    predicate IsFailure() {
      Failure?
    }

    function PropagateFailure<U>(): Result<U, E>
      requires Failure?
    {
      Failure(error)
    }

    function Extract(): T
      requires Success?
    {
      value
    }
  }
}
