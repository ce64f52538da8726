/** The failure channel of the drawing model. Every check in the program throws
    an IllegalArgumentException carrying a fixed message; the model returns that
    message instead of throwing it. */
module Errors {

  /** An IllegalArgumentException and its message. */
  datatype Error = IllegalArgument(message: string)

  /** A reference that may be `null`. */
  datatype Option<+T> = None | Some(value: T)

  /** Outcome of a `void` operation that may throw. */
  datatype Outcome = Pass | Fail(error: Error)

  /** Outcome of an operation that returns a value or throws. */
  datatype Result<+T> = Ok(value: T) | Err(error: Error)
}
