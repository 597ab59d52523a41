/** Failure-compatible wrappers used by every other module: an optional value
    (a dictionary key that may be absent, or a Python argument that may be
    None), a value-or-error result, and a pass/fail outcome. */
module Wrappers {

  datatype Option<+T> = None | Some(value: T)

  datatype Result<+T, +E> = Success(value: T) | Failure(error: E) {

    predicate IsFailure() {
      Failure?
    }

    function PropagateFailure<U>(): Result<U, E>
      requires Failure?
    {
      Failure(error)
    }

    function Extract(): T
      requires Success?
    {
      value
    }
  }

  datatype Outcome<+E> = Pass | Fail(error: E)
}
