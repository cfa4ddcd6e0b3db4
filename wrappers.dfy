/** Failure-carrying wrappers used for JavaScript's `undefined`, thrown errors and rejected promises. */
module Wrappers {

  datatype Option<+T> = None | Some(value: T)

  /** The value of a computation that either returns normally or throws. */
  datatype Result<+R, +E> = Success(value: R) | Failure(error: E)

  /** A computation with no useful value that either completes or throws. */
  datatype Outcome<+E> = Pass | Fail(error: E)
}
