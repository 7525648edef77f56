/** Option and Result, the two failure-carrying shapes the model needs. */
module Wrappers {

  /** A value that may be absent; stands for a Go `error` that may be nil. */
  datatype Option<+T> = None | Some(value: T)

  /** Either a value or an error; stands for Go's `(T, error)` return pair. */
  datatype Result<+T, +E> = Success(value: T) | Failure(error: E)
}
