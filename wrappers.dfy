/** Option and Result, used for the source's `None` returns and raised errors. */
module Wrappers {

  datatype Option<+T> = None | Some(value: T)

  /** `Failure` stands for an exception the source raises (its message) or returns as an error. */
  datatype Result<+R, +E> = Success(value: R) | Failure(error: E)
}
