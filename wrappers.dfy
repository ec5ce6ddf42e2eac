/** Option and Result: the shapes used for values that may be absent and for
    operations that may throw. */
module Wrappers {

  /** A value that may be absent (an `undefined` property). */
  datatype Option<+T> = None | Some(value: T)

  /** The outcome of an operation that either returns a value or throws. */
  datatype Result<+T, +E> = Ok(value: T) | Err(error: E)
}
