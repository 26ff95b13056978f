/** Option and Result values used for the error paths of the model. */
module Wrappers {

  datatype Option<+T> = None | Some(value: T)

  /** A computation that either yields a value or fails with an error. */
  datatype Result<+R, +E> = Ok(value: R) | Err(error: E)

  /** A computation that has no value of its own but may fail. */
  datatype Outcome<+E> = Pass | Fail(error: E)
}
