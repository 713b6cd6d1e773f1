/** Option and Result, used for Python's None and for the exceptions the source lets escape. */
module Wrappers {

  /** `None` stands for a Python `None` (or an absent key, depending on context). */
  datatype Option<+T> = None | Some(value: T)

  /** `Failure` stands for an exception that the source does not catch. */
  datatype Result<+R, +E> = Success(value: R) | Failure(error: E)
}
