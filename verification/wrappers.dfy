/** Option and Result, the way absent pointers and fatal outcomes are written in this model. */
module Wrappers {

  /** `None` stands for a null pointer, `Some(v)` for a pointer to `v`. */
  datatype Option<+T> = None | Some(value: T)

  /** The outcome of an operation that can dereference a null pointer. */
  datatype Result<+T, +E> = Success(value: T) | Failure(error: E)
}
