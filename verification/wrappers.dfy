/** Failure-carrying values used across the model: Go's `(value, error)` pairs
    become `Result`, a bare `error` return becomes `Outcome`. Error values are
    the message strings the program formats. */
module Wrappers {

  datatype Option<+T> = None | Some(value: T)

  datatype Result<+R> = Success(value: R) | Failure(error: string)

  /** `Pass` stands for a nil `error`, `Fail(message)` for a non-nil one. */
  datatype Outcome = Pass | Fail(message: string)
}
