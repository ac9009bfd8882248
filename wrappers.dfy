/** Option and Result, the failure-carrying values used throughout the model. */
module Wrappers {

  datatype Option<+T> = None | Some(value: T)

  /** A fatal error of the source (NS_FATAL_ERROR) is an Err; everything else is Ok. */
  datatype Result<+T, +E> = Ok(value: T) | Err(error: E)
}
