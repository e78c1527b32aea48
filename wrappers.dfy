/** Success/failure values standing for the exceptions the modelled code raises. */
module Wrappers {

  /** Either a value or the error that aborted the computation. */
  datatype Result<+T, +E> = Success(value: T) | Failure(error: E)

  datatype Option<+T> = None | Some(value: T)
}
