/** Failure-carrying values used by both handlers in place of Python's None and exceptions. */
module Wrappers {

  /** A value that may be absent, as Python's `None`. */
  datatype Option<T> = None | Some(value: T)

  /** The outcome of a step that either completes or raises. */
  datatype Result<T, E> = Ok(value: T) | Err(error: E)
}
