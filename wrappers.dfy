/** Option and Result, the two failure-carrying wrappers the model uses. */
module Wrappers {

  datatype Option<+T> = None | Some(value: T)

  /** The shape of Rust's `Result`: `Success` is `Ok`, `Failure` is `Err`. */
  datatype Result<+T, +E> = Success(value: T) | Failure(error: E)
}
