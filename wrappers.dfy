/** Option and Result, the two failure-carrying shapes the translator needs. */
module Wrappers {

  /** A value that may be absent (a regex group that did not match, a token without a type). */
  datatype Option<+T> = None | Some(value: T)

  /** The outcome of an operation that either yields a value or throws. */
  datatype Result<+T, +E> = Ok(value: T) | Err(error: E)
}
