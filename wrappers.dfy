/** Failure-compatible result types shared by the other modules. */
module Wrappers {

  /** An optional value. */
  datatype Option<+T> = None | Some(value: T)

  /** Either a value or the error that stands for the exception the source raises. */
  datatype Result<+T, +E> = Success(value: T) | Failure(error: E)
}
