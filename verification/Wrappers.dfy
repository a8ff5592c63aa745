/** Optional values and outcomes, shared by all modules. */
module Wrappers {
  datatype Option<+T> = None | Some(value: T)
  datatype Result<+T, +E> = Success(value: T) | Failure(error: E)
}
