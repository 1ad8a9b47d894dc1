/** Optional values and results with an error message. */
module Wrappers {

  datatype Option<+T> = None | Some(value: T)

  /** A settled promise or a call that may throw: a value or an error message. */
  datatype Result<+T> = Ok(value: T) | Err(error: string)
}
