/** Option and Result values shared by every module of the model. */
module Wrappers {

  /** A value that may be absent (TypeScript `undefined` / optional property). */
  datatype Option<+T> = None | Some(value: T)

  /** The outcome of an operation that throws on failure: the value, or the thrown error. */
  datatype Result<+T, +E> = Success(value: T) | Failure(error: E) {
    predicate IsFailure() { Failure? }

    function PropagateFailure<U>(): Result<U, E>
      requires Failure?
    {
      Failure(error)
    }

    function Extract(): T
      requires Success?
    {
      value
    }
  }
}
