/** Failure-carrying results shared by the modules of this model. */
module Wrappers {

  datatype Option<+T> = None | Some(value: T)

  /** The outcome of an operation that the original program can abort by raising. */
  datatype Result<+T, +E> = Ok(value: T) | Err(error: E)
}
