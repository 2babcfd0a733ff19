/** Optional values and error-carrying results shared by every module of the model. */
module Wrappers {

  /** A value that may be absent: Python's `None`, TypeScript's `undefined` or `null`. */
  datatype Option<+T> = None | Some(value: T)

  /** The outcome of an operation that can raise one of the application's exceptions. */
  datatype Result<+T, +E> = Ok(value: T) | Err(error: E)
}
