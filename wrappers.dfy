/** Optional values and results with an error side. */
module Wrappers {

  /** A value that may be absent: JavaScript's `undefined` or `null`. */
  datatype Option<+T> = None | Some(value: T)

  /** The outcome of a validation: the parsed value, or the problems found. */
  datatype Result<+T, +E> = Ok(value: T) | Err(error: E)
}
