/** Option and result types shared by the trading modules. */
module Wrappers {

  /** A value that may be absent: Python's `None` versus a value. */
  datatype Option<+T> = None | Some(value: T)

  /** The outcome of an operation that may raise: `Ok` or the error it raises. */
  datatype Result<+T, +E> = Ok(value: T) | Err(error: E)
}
