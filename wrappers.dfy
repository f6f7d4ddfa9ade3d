/** Failure-compatible result types shared by the model. */
module Wrappers {

  /** A value that may be absent: a C# reference or configuration entry that may be null. */
  datatype Option<+T> = None | Some(value: T)

  /** Either a value or the error that a C# method would have thrown instead. */
  datatype Result<+T, +E> = Success(value: T) | Failure(error: E)
}
