/** Optional values and results that carry an error, in place of JavaScript's
    undefined/null and thrown exceptions. */
module Wrappers {
  datatype Option<T> = None | Some(value: T)

  datatype Result<T, E> = Success(value: T) | Failure(error: E)
}
