/** Failure-compatible wrappers used by every stage of the two handlers. */
module Wrappers {

  /** An optional value: Python's `None` versus a present value. */
  datatype Option<+T> = None | Some(value: T)

  /** The outcome of a stage that may raise: `Failure` stands for the exception. */
  datatype Result<+T, +E> = Success(value: T) | Failure(error: E) {

    predicate IsFailure() {
      Failure?
    }

    function PropagateFailure<U>(): Result<U, E>
      requires Failure?
    {
      Failure(error)
    }

    function Extract(): T
      requires Success?
    {
      value
    }

    /** Keeps a success, rewrites the error of a failure. */
    function MapFailure<F>(rewrap: E -> F): Result<T, F>
    {
      match this
      case Success(v) => Success(v)
      case Failure(e) => Failure(rewrap(e))
    }
  }
}
