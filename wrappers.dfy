/** Failure-compatible wrappers shared by the model: an optional value, and the
    outcome of an operation that may throw a JavaScript `Error` with a message. */
module Wrappers {

  datatype Option<+T> = None | Some(value: T)

  /** The result of a TypeScript/JavaScript function that either returns a value
      or throws `new Error(message)`. */
  datatype Result<+T> = Ok(value: T) | Throw(message: string)
}
