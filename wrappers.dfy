/** Option and Result, used for PHP's nullable values and for the exceptions a command throws. */
module Wrappers {

  /** `None` stands for PHP's `null`. */
  datatype Option<+T> = None | Some(value: T)

  /** `Failure` stands for an exception thrown by the operation. */
  datatype Result<+T, +E> = Success(value: T) | Failure(error: E)
}
