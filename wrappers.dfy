/** Option and Result, used for the memo slot and for lookups that can throw. */
module Wrappers {

  datatype Option<T> = None | Some(value: T)

  /** The outcome of an operation that either returns a value or throws. */
  datatype Result<T, E> = Ok(value: T) | Err(error: E)
}
