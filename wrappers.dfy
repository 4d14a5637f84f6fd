/** Failure-compatible wrappers used for the macros' `throws` paths. */
module Wrappers {

  /** An optional value: SwiftSyntax's optional body, optional literal value, optional label. */
  datatype Option<+T> = None | Some(value: T)

  /** The outcome of a throwing Swift function: a value, or the error it throws. */
  datatype Result<+T, +E> = Success(value: T) | Failure(error: E) {

    predicate IsFailure() {
      Failure?
    }

    function PropagateFailure<U>(): Result<U, E>
      requires Failure?
    {
      Failure(error)
    }

    function Extract(): T
      requires Success?
    {
      value
    }
  }
}
