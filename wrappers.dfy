/** Option and Result values shared by the client and the front end. */
module Wrappers {

  /** An optional value: Python's `None` or a present value. */
  datatype Option<+T> = None | Some(value: T)

  /** A value or the error that stands for a raised exception. */
  datatype Result<+T, +E> = Success(value: T) | Failure(error: E)
}
