/** Option and Result, the failure-compatible wrappers the rest of the model
    uses in place of Swift optionals and of the `try!` traps of the source. */
module Wrappers {

  /** An optional value: `nil` is `None`. */
  datatype Option<+T> = None | Some(value: T)

  /** A value or the error that prevented computing it; usable with `:-`. */
  datatype Result<+T, +E> = Success(value: T) | Failure(error: E) {

    predicate IsFailure() {
      Failure?
    }

    function PropagateFailure<U>(): Result<U, E>
      requires Failure?
    {
      Failure(error)
    }

    function Extract(): T
      requires Success?
    {
      value
    }
  }
}
