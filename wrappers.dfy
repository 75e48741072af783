/** Failure-compatible result types: the C++ layer reports failures by throwing
    std::runtime_error, which this model turns into a returned failure value. */
module Wrappers {

  datatype Option<+T> = None | Some(value: T)

  /** The outcome of a wrapper that returns nothing (a C++ `void` method that may throw). */
  datatype Outcome<+E> = Pass | Fail(error: E) {
    predicate IsFailure() { Fail? }
    function PropagateFailure(): Outcome<E> requires Fail? { this }
  }

  /** The outcome of a wrapper that returns a value or throws. */
  datatype Result<+T, +E> = Success(value: T) | Failure(error: E) {
    predicate IsFailure() { Failure? }
    function PropagateFailure<U>(): Result<U, E> requires Failure? { Failure(error) }
    function Extract(): T requires Success? { value }
  }
}
