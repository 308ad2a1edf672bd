/** Failure-carrying datatypes shared by the whole model. */
module Wrappers {

  datatype Option<+T> = None | Some(value: T)

  /** A Go `(value, error)` pair: either a value or the text of the error. */
  datatype Result<+T> = Ok(value: T) | Err(message: string)
}
