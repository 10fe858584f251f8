/** Failure-carrying values used wherever the source returns None or raises. */
module Wrappers {

  datatype Option<+T> = None | Some(value: T)

  /** `Ok` is a normal return; `Err` is an exception (or an error reply) with its payload. */
  datatype Result<+T, +E> = Ok(value: T) | Err(error: E)
}
