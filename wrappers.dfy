/** Option and Result types shared by the crop modules. */
module Wrappers {

  datatype Option<+T> = None | Some(value: T)

  /** The outcome of an operation that either yields a value or reports one error. */
  datatype Result<+T, +E> = Success(value: T) | Failure(error: E)
}
