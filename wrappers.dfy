/** Optional values and results, the Dafny counterparts of Swift's `T?` and `throws`. */
module Wrappers {

  datatype Option<+T> = None | Some(value: T)

  datatype Result<+R, +E> = Success(value: R) | Failure(error: E)
}
