/** Failure-carrying values used where the Go code returns `error`. */
module Wrappers {

  datatype Option<+T> = None | Some(value: T)

  /** An `error` return with no value beside it: `nil` is Pass. */
  datatype Outcome<+E> = Pass | Fail(error: E)

  /** A `(value, error)` pair in which exactly one side is meaningful. */
  datatype Result<+T, +E> = Success(value: T) | Failure(error: E)
}
