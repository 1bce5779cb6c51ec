/** Optional values and results, the model's stand-ins for `null`/`undefined` and for a thrown `Error`. */
module Wrappers {

  datatype Option<+T> = None | Some(value: T)

  datatype Result<+R, +E> = Success(value: R) | Failure(error: E)
}
