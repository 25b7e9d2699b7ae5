/** Failure-carrying values used throughout the model. */
module Wrappers {

  /** A value that may be missing; `None` plays the part of Go's nil error. */
  datatype Option<+T> = None | Some(value: T)

  /** A Go `error` result: `Pass` for nil, `Fail` carrying the message otherwise. */
  datatype Outcome<+E> = Pass | Fail(error: E)

  /** A Go `(value, error)` pair where exactly one side is meaningful. */
  datatype Result<+R, +E> = Ok(value: R) | Err(error: E)
}
