/** Failure-carrying values used in place of the exceptions the camera model throws. */
module Wrappers {

  datatype Option<+T> = None | Some(value: T)

  datatype Result<+T, +E> = Ok(value: T) | Err(error: E)

  /** The outcome of an operation that only changes state: it passes or it fails with an error. */
  datatype Outcome<+E> = Pass | Fail(error: E)
}
