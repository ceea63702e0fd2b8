/** Failure-compatible wrappers shared by the model: an optional value (a
    table slot that may still be empty, a cell that may be null) and a
    result that is either a value or the error that aborted the step. */
module Wrappers {

  datatype Option<+T> = None | Some(value: T)

  datatype Result<+R, +E> = Success(value: R) | Failure(error: E)
}
