/** Failure-carrying values shared by the modules of this model. */
module Wrappers {

  /** A value that may be absent (Python's `None`, a missing dictionary key, a raised exception). */
  datatype Option<T> = None | Some(value: T)

  /** An HTTP handler's outcome: a value, or the error it raises. */
  datatype Result<T, E> = Ok(value: T) | Err(error: E)
}
