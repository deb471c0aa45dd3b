/** The optional value and the call result used throughout the model. */
module Wrappers {

  datatype Option<+T> = None | Some(value: T)

  /** The result of a Python call: its value, or the exception it raises. */
  datatype Result<+T, +E> = Ok(value: T) | Err(error: E)
}
