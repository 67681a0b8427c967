/** Option and Result, the two failure-carrying values the model uses in place of
    NULL pointers and of calls to exit(1). */
module Wrappers {

  /** A value that may be absent (a C pointer that may be NULL). */
  datatype Option<+T> = None | Some(value: T)

  /** Either a value or the error that ended the computation. */
  datatype Result<+T, +E> = Ok(value: T) | Err(error: E)
}
