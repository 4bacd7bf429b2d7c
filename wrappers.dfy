/** Optional values and results with an error, the two shapes the SDK's
    promises resolve to: a value or `undefined`, a value or a thrown error. */
module Wrappers {

  datatype Option<+T> = None | Some(value: T)

  datatype Result<+R, +E> = Success(value: R) | Failure(error: E)
}
