/** Option and Result values, used wherever the source returns None or raises. */
module Wrappers {

  datatype Option<+T> = None | Some(value: T)

  /** `Failure` stands for an exception raised by the source, with its message. */
  datatype Result<+R, +E> = Success(value: R) | Failure(error: E)
}
