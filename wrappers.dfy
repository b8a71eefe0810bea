/** Option and Result, the failure-carrying datatypes used throughout the model. */
module Wrappers {

  datatype Option<+T> = None | Some(value: T)

  /** A computation that either yields a value or throws an error with a message. */
  datatype Result<+T> = Ok(value: T) | Err(message: string)
}
