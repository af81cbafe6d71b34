/** Failure-compatible wrappers used throughout the model: Go's `(value, error)`
    pairs become `Result`, and Go's nil-able slices become `Option`. */
module Wrappers {

  /** `None` stands for Go's nil (a nil slice, a nil error). */
  datatype Option<+T> = None | Some(value: T) {

    /** The wrapped value, or `default` when there is none. */
    function GetOr(default: T): T {
      match this
      case Some(v) => v
      case None => default
    }
  }

  /** The outcome of a Go call that returns a value and an error. */
  datatype Result<+T, +E> = Success(value: T) | Failure(error: E) {

    predicate IsFailure() {
      Failure?
    }

    function PropagateFailure<U>(): Result<U, E>
      requires Failure?
    {
      Failure(error)
    }

    function Extract(): T
      requires Success?
    {
      value
    }
  }
}
