/** Failure-carrying values shared by the modules of this model. */
module Wrappers {

  /** A value that may be missing: the success half of Go's `(v, err)` pairs. */
  datatype Option<+T> = None | Some(value: T)

  /** Either a value or the error that prevented computing it. */
  datatype Result<+T, +E> = Ok(value: T) | Err(error: E)
}
