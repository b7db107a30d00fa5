/** Failure-carrying values shared by every module of the model. */
module Wrappers {

  /** A value that may be absent; Python's `None` where the source allows it. */
  datatype Option<+T> = None | Some(value: T)

  /** Either a value or the exception the source raises instead of returning. */
  datatype Result<+T, +E> = Ok(value: T) | Err(error: E)
}
