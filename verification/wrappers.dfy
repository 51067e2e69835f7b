/** Optional values and success/failure results shared by the other modules. */
module Wrappers {

  /** An unset environment variable or a missing body field is `None`. */
  datatype Option<+T> = None | Some(value: T)

  /** A step that either yields a value or raises an error. */
  datatype Result<+R, +E> = Success(value: R) | Failure(error: E)
}
