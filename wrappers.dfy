/** Optional values and fallible results, used for Go's (value, error) returns. */
module Wrappers {

  /** A value that may be absent; `None` also stands for Go's nil error. */
  datatype Option<+T> = None | Some(value: T)

  /** The outcome of a fallible step. */
  datatype Result<+T, +E> = Ok(value: T) | Err(error: E)
}
