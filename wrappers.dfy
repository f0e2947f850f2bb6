/** Failure-carrying values: an absent value and a call that can fail. */
module Wrappers {

  /** A value that may be absent (the source's `string | null`). */
  datatype Option<T> = None | Some(value: T)

  /** The outcome of a backend call: a value, or the error it was thrown with. */
  datatype Result<T, E> = Ok(value: T) | Err(error: E)
}
