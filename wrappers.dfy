/** Failure-compatible wrappers shared by the client model. */
module Wrappers {

  /** An optional value: a JSON member that may be absent, a parse that may fail. */
  datatype Option<+T> = None | Some(value: T)

  /** A value or an error; the client uses it for the decoding of a response envelope. */
  datatype Result<+T, +E> = Ok(value: T) | Err(error: E)
}
