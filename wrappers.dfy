/** Option and Result datatypes shared by the model's modules. */
module Wrappers {

  datatype Option<+T> = None | Some(value: T)

  /** Success carries the value an operation returned; Failure the exception it threw. */
  datatype Result<+T, +E> = Success(value: T) | Failure(error: E)
}
