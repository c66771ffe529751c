/** Failure-carrying wrappers used throughout the model.

    `Result` stands for a computation that either produced a value or raised
    an exception; its error is the exception's message, which the detectors
    turn into an `Error: <cause>` rationale. */
module Wrappers {

  datatype Option<+T> = None | Some(value: T)

  datatype Result<+T> = Success(value: T) | Failure(error: string)
}
