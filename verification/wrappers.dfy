/** Failure-compatible wrappers used for the errors the modelled code raises. */
module Wrappers {

  /** An optional value; `None` also stands for Python's `None` and for NaN. */
  datatype Option<+T> = None | Some(value: T)

  /** Either a value or the error an exception would have carried. */
  datatype Result<+T, +E> = Success(value: T) | Failure(error: E) {

    predicate IsFailure() {
      Failure?
    }

    function PropagateFailure<U>(): Result<U, E>
      requires Failure?
    {
      Failure(error)
    }

    function Extract(): T
      requires Success?
    {
      value
    }
  }
}
