/** Failure-carrying values shared by the whole model. */
module Wrappers {

  /** A value that may be absent: JavaScript's `null`/`undefined` results. */
  datatype Option<+T> = None | Some(value: T)

  /** A value or the message of the exception the source would throw instead. */
  datatype Result<+T> = Ok(value: T) | Err(message: string)
}
