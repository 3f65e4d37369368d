/** Failure-compatible wrappers shared by every module of the model. */
module Wrappers {

  /** An optional value: Go's "comma ok" lookups, JavaScript's `null`. */
  datatype Option<+T> = None | Some(value: T)

  /** A value or an error message, the model of Go's `(T, error)` returns. */
  datatype Result<+T> = Success(value: T) | Failure(error: string) {
    predicate IsFailure() {
      Failure?
    }

    function PropagateFailure<U>(): Result<U>
      requires Failure?
    {
      Failure(error)
    }

    function Extract(): T
      requires Success?
    {
      value
    }
  }
}
