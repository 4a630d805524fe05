/** Option and Result, the shapes every other module uses for "maybe absent" and "may fail". */
module Wrappers {

  /** A value that may be absent (a `null` field or an `undefined` `find`). */
  datatype Option<+T> = None | Some(value: T)

  /** The settled value of a promise: resolved with `value` or rejected with `error`. */
  datatype Result<+T, +E> = Success(value: T) | Failure(error: E)
}
