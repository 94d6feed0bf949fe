/** Success/failure values shared by the whole model. */
module Wrappers {

  /** A value that may be absent (a JavaScript `undefined`). */
  datatype Option<+T> = None | Some(value: T)

  /** The outcome of an operation that can throw: `Err` carries the error's message. */
  datatype Result<+T> = Ok(value: T) | Err(message: string)
}
