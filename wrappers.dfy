/** Optional values and results shared by the other modules. */
module Wrappers {

  /** A value that may be absent: a TypeScript optional field or `undefined`. */
  datatype Option<+T> = None | Some(value: T)

  /** The outcome of an operation that either yields a value or throws. */
  datatype Result<+R, +E> = Success(value: R) | Failure(error: E)
}
