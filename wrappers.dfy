/** Option and Result: the absent value and the error return, written out once. */
module Wrappers {

  /** A value that may be missing (JavaScript null/undefined, Python False). */
  datatype Option<+T> = None | Some(value: T)

  /** A computation that either succeeds or raises an error. */
  datatype Result<+T, +E> = Ok(value: T) | Err(error: E)
}
