/** Failure-compatible result types shared by the pipeline modules. */
module Wrappers {

  datatype Option<+T> = None | Some(value: T)

  /** A value, or the error a step raised. Usable with `:-`. */
  datatype Result<+R, +E> = Success(value: R) | Failure(error: E) {
    predicate IsFailure() {
      Failure?
    }

    function PropagateFailure<U>(): Result<U, E>
      requires Failure?
    {
      Failure(error)
    }

    function Extract(): R
      requires Success?
    {
      value
    }
  }

  /** Success without a value, or the error a step raised. */
  datatype Outcome<+E> = Pass | Fail(error: E)
}
