/** Failure-carrying values used across the risk-analysis model. */
module Wrappers {

  /** A value that may be absent, as a Python `dict.get` that finds nothing. */
  datatype Option<+T> = None | Some(value: T)

  /** A value or the error that prevented computing it. */
  datatype Result<+T, +E> = Ok(value: T) | Err(error: E)
}
