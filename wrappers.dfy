/** Failure-compatible wrappers shared by the whole model. */
module Wrappers {

  datatype Option<+T> = None | Some(value: T)

  /** The outcome of an operation that raises (in the source) instead of returning. */
  datatype Result<+T> = Ok(value: T) | Err(error: string)
}
