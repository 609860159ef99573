/** Option and Result, the model's stand-ins for C#'s `null` and for thrown exceptions. */
module Wrappers {

  /** `None` plays the role of a `null` reference. */
  datatype Option<+T> = None | Some(value: T)

  /** `Failure(e)` plays the role of an exception `e` thrown out of a call. */
  datatype Result<+T, +E> = Success(value: T) | Failure(error: E) {
    predicate IsFailure() { Failure? }

    function PropagateFailure<U>(): Result<U, E>
      requires Failure?
    {
      Failure(error)
    }

    function Extract(): T
      requires Success?
    {
      value
    }
  }

  /** Outcome of a check that either passes or fails with an error. */
  datatype Outcome<+E> = Pass | Fail(error: E)
}
