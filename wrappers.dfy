/** Optional values and results with an error, shared by the wizard modules. */
module Wrappers {

  datatype Option<+T> = None | Some(value: T)

  /** The outcome of code that either returns a value or throws an error message. */
  datatype Result<+T, +E> = Ok(value: T) | Err(error: E)
}
