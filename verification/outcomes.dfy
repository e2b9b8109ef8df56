/** Failure-compatible wrappers shared by every module of the model. */
module Outcomes {

  /** A value that may be absent, such as a page's missing `NextToken`. */
  datatype Option<+T> = None | Some(value: T)

  /** The result of an operation that can raise: a value, or the error it raised. */
  datatype Result<+T, +E> = Success(value: T) | Failure(error: E) {

    predicate IsFailure() {
      Failure?
    }

    function PropagateFailure<U>(): Result<U, E>
      requires Failure?
    {
      Failure(error)
    }

    function Extract(): T
      requires Success?
    {
      value
    }
  }
}
