/** Option and Result, the two failure-aware wrappers used throughout the model. */
module Wrappers {

  /** A value that may be absent: JavaScript's `undefined` from `Array.prototype.find`, a null column. */
  datatype Option<+T> = None | Some(value: T)

  /** The outcome of a step that may throw. */
  datatype Result<+T, +E> = Ok(value: T) | Err(error: E)
}
