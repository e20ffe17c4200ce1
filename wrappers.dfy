/** Optional values and results with an error payload, shared by every module. */
module Wrappers {

  /** A value that may be absent: JavaScript's `undefined` / `null` on a header, field or parameter. */
  datatype Option<+T> = None | Some(value: T)

  /** The outcome of a step that may fail with an error value. */
  datatype Result<+R, +E> = Success(value: R) | Failure(error: E)
}
