/** Optional and result values used across the model. */
module Wrappers {

  /** An optional value: the model of a Python argument that may be `None`. */
  datatype Option<+T> = None | Some(value: T)

  /** Either a value or the error the source raises instead of returning one. */
  datatype Result<+R, +E> = Success(value: R) | Failure(error: E)
}
