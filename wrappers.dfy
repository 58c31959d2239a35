/** Failure-carrying results shared by every module of the model. */
module Wrappers {

  datatype Option<+T> = None | Some(value: T)

  /** The value a computation returned, or the error it raised. */
  datatype Result<+T, +E> = Ok(value: T) | Err(error: E)
}
