/** Failure-carrying values: an operation that may raise returns one of these. */
module Wrappers {

  /** A value, or nothing (a Python `None`, or a call that raised and was caught). */
  datatype Option<+T> = None | Some(value: T)

  /** A value, or the error that aborted the computation. */
  datatype Result<+T, +E> = Ok(value: T) | Err(error: E)
}
