/** Option and Result, used for nullable children and for operations that can fail. */
module Wrappers {

  /** A value that may be absent; stands for a nullable pointer. */
  datatype Option<+T> = None | Some(value: T)

  /** Either a value or an error; stands for an operation that may throw. */
  datatype Result<+R, +E> = Success(value: R) | Failure(error: E)
}
