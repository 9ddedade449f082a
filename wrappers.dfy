/** Optional values and results with an error message, shared by the other modules. */
module Wrappers {

  /** A value that may be missing, as a query parameter or a JSON field may be. */
  datatype Option<+T> = None | Some(value: T)

  /** The outcome of a step that either produces a value or throws an Error with a message. */
  datatype Result<+T> = Ok(value: T) | Err(message: string)
}
