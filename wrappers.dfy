/** Optional values and results shared by the modules of this model. */
module Wrappers {

  /** A value that may be absent: a JavaScript `null` ref is `None`. */
  datatype Option<+T> = None | Some(value: T)

  /** The outcome of an operation that may throw. */
  datatype Result<+T, +E> = Success(value: T) | Failure(error: E)
}
