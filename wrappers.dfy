/** Option and Result, used for the title matcher and for the service's error path. */
module Wrappers {

  datatype Option<+T> = None | Some(value: T)

  /** The value of a call that either completes or fails with an error. */
  datatype Result<+T, +E> = Ok(value: T) | Err(error: E)
}
