/** Failure-carrying results, standing in for the exceptions the game core throws. */
module Wrappers {

  datatype Option<+T> = None | Some(value: T)

  datatype Result<+T, +E> = Ok(value: T) | Err(error: E)

  /** The outcome of an operation that produces no value: it either passes or fails with an error. */
  datatype Outcome<+E> = Pass | Fail(error: E)
}
