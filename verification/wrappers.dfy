/** Option, Result and Outcome, used throughout the agent model. */
module Wrappers {

  /** A value that may be absent; stands for a Go pointer that may be nil. */
  datatype Option<+T> = None | Some(value: T)

  /** A value or an error; stands for Go's `(T, error)` return pair. */
  datatype Result<+T, +E> = Ok(value: T) | Err(error: E)

  /** Success or an error; stands for a Go function that returns only `error`. */
  datatype Outcome<+E> = Pass | Fail(error: E)
}
