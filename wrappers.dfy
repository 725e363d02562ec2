/** Failure-compatible result types shared by the modules of this model. */
module Wrappers {

  /** A value that may be absent: a failed parse, an unset variable. */
  datatype Option<+T> = None | Some(value: T)

  /** The `(value, error)` pair a Go function returns, as one of its two halves. */
  datatype Result<+T, +E> = Success(value: T) | Failure(error: E)
}
