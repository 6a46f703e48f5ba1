/** Failure-compatible results shared by every module of the model. */
module Wrappers {

  datatype Option<+T> = None | Some(value: T)

  /** The two exceptions the modelled code raises: `ValueError` for every
      rejected argument, `StopIteration` when an iterator runs dry. */
  datatype Error = ValueError | StopIteration

  datatype Result<+T> = Ok(value: T) | Err(error: Error)
}
