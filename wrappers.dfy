/** Optional values and results shared by the rest of the model. */
module Wrappers {

  /** A value that may be absent: Python's `None` or `False` where the source returns one. */
  datatype Option<+T> = None | Some(value: T)

  /** The outcome of an operation that can fail with an error of type `E`:
      a Python exception that the caller has to see is an `Err`. */
  datatype Result<+T, +E> = Ok(value: T) | Err(error: E)
}
