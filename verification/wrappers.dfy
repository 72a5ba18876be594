/** The optional-value and outcome types used across the model. */
module Wrappers {

  /** A value that may be absent: JavaScript's `null`/`undefined` or a value. */
  datatype Option<+T> = None | Some(value: T)

  /** The outcome of an operation that can throw: a value, or the thrown error's message. */
  datatype Result<+T> = Ok(value: T) | Err(message: string)
}
