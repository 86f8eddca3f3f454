/** Failure-carrying values shared by every module of the model. */
module Wrappers {

  datatype Option<+T> = None | Some(value: T)

  /** The `Result<T, E>` of the source: either a value or an error. */
  datatype Result<+T, +E> = Ok(value: T) | Err(error: E)
}
