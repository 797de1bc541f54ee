/** Optional values and results of calls that can fail with a message. */
module Wrappers {

  /** A value that may be absent (`undefined` in the JavaScript source). */
  datatype Option<+T> = None | Some(value: T)

  /** The outcome of a call that can throw: its value, or the thrown error's message. */
  datatype Result<+T> = Ok(value: T) | Err(message: string)
}
