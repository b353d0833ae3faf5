/** Failure-carrying values shared by the other modules. */
module Wrappers {

  /** An optional value: `None` where Python has `None` or where a call raises. */
  datatype Option<T> = None | Some(value: T)

  /** A value or the error that stopped its computation. */
  datatype Result<T, E> = Ok(value: T) | Err(error: E)
}
