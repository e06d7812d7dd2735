/** Failure-compatible wrappers used for the Java exceptions of the object model. */
module Wrappers {

  datatype Option<+T> = None | Some(value: T)

  /** A value or the exception that replaced it. */
  datatype Result<+T, +E> = Success(value: T) | Failure(error: E) {
    predicate IsFailure() { Failure? }

    function PropagateFailure<U>(): Result<U, E>
      requires Failure?
    {
      Failure(error)
    }

    function Extract(): T
      requires Success?
    {
      value
    }
  }

  /** The outcome of a `void` Java method: it returned, or it threw. */
  datatype Outcome<+E> = Pass | Fail(error: E)
}
