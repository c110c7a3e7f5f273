/** Absent values and error results, in the usual Option/Result shape. */
module Wrappers {

  /** A value that may be missing, as a pivot cell that no group filled. */
  datatype Option<+T> = None | Some(value: T)

  /** The outcome of a computation that may abort with an error. */
  datatype Result<+T, +E> = Ok(value: T) | Err(error: E)
}
