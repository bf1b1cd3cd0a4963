/** Optional values and results, for JavaScript's `null`/`undefined` and for code that throws. */
module Wrappers {

  datatype Option<+T> = None | Some(value: T)

  datatype Result<+R, +E> = Success(value: R) | Failure(error: E)
}
