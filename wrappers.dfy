/** Option and result datatypes used across the model. */
module Wrappers {

  /** A value that may be absent; also stands for PHP's `null` default arguments. */
  datatype Option<+T> = None | Some(value: T)

  /** The outcome of an operation that may throw: the source's exceptions become `Failure`. */
  datatype Result<+T, +E> = Success(value: T) | Failure(error: E)
}
