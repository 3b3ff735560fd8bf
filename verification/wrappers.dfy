/** Failure-carrying result types shared by the other modules. */
module Wrappers {

  /** A value that may be absent, as a `fetchone()` that finds no row. */
  datatype Option<+T> = None | Some(value: T)

  /** The outcome of an operation that may raise instead of returning. */
  datatype Result<+R, +E> = Success(value: R) | Failure(error: E)
}
