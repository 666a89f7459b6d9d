/** Option and Result values standing in for JavaScript's `undefined`/`null`
    and for thrown exceptions. */
module Wrappers {

  datatype Option<+T> = None | Some(value: T)

  /** The outcome of an operation that either returns a value or throws. */
  datatype Result<+T, +E> = Success(value: T) | Failure(error: E)

  /** The outcome of an operation that returns nothing of interest or throws. */
  datatype Outcome<+E> = Pass | Fail(error: E)
}
