/** An optional value, and a result that is either a value or an error message. */
module Wrappers {

  /** A value that may be absent; models an optional (`?:`) property. */
  datatype Option<+T> = None | Some(value: T)

  /** The outcome of a computation that either returns a value or throws. */
  datatype Result<+T, +E> = Ok(value: T) | Err(error: E)
}
