/** Optional values and success-or-failure results, used where the application
    works with `undefined` or reports validation errors. */
module Wrappers {

  datatype Option<+T> = None | Some(value: T)

  datatype Result<+R, +E> = Success(value: R) | Failure(error: E)
}
