/** Optional values and error results shared by every module of the model. */
module Wrappers {

  /** A value that may be missing: Python's `None` versus a value. */
  datatype Option<+T> = None | Some(value: T)

  /** The outcome of an operation that may raise: the value it returns, or the
      message of the exception it raises. */
  datatype Result<+T> = Ok(value: T) | Err(error: string)
}
