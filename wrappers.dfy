/** Failure-carrying datatypes shared by the model, and the byte type. */
module Wrappers {

  datatype Option<+T> = None | Some(value: T)

  datatype Result<+R, +E> = Success(value: R) | Failure(error: E)

  /** One octet, as Go's `byte`. */
  type byte = x: int | 0 <= x < 256
}
