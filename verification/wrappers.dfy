/** Failure-compatible wrappers used by the registration schema model. */
module Wrappers {

  /** A value that may be absent: a JavaScript `undefined` field or a failed lookup. */
  datatype Option<+T> = None | Some(value: T)

  /** The outcome of a schema parse: the validated value, or the collected errors. */
  datatype Result<+R, +E> = Success(value: R) | Failure(error: E)
}
