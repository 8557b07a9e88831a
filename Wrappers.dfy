/** Failure-carrying result types shared by every module of the model. */
module Wrappers {

  datatype Option<+T> = None | Some(value: T)

  /** A computation that either yields a value or throws `error`. */
  datatype Result<+T, +E> = Ok(value: T) | Err(error: E)

  /** A computation with no value that either completes or throws `error`. */
  datatype Outcome<+E> = Pass | Fail(error: E)
}
