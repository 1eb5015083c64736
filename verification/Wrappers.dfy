/** Failure-compatible types: a refusal carries the code of the check that raised it. */
module Wrappers {

  datatype Option<+T> = None | Some(value: T)

  datatype Result<+T, +E> = Success(value: T) | Failure(error: E) {
    predicate IsFailure() {
      Failure?
    }

    function PropagateFailure<U>(): Result<U, E>
      requires Failure?
    {
      Failure(error)
    }

    function Extract(): T
      requires Success?
    {
      value
    }
  }

  datatype Requirement<+E> = Met | Refused(code: E) {
    predicate IsFailure() {
      Refused?
    }

    function PropagateFailure<U>(): Result<U, E>
      requires Refused?
    {
      Failure(code)
    }
  }

  /** `require(value, code)` of the checkers. */
  function Require<E>(value: bool, code: E): Requirement<E> {
    if value then Met else Refused(code)
  }
}
