/** Optional values and results, used for the Go idioms of this package:
    a nullable pointer or a nil-able error is an Option, a `(value, err)`
    return pair is a Result. */
module Wrappers {

  datatype Option<+T> = None | Some(value: T)

  datatype Result<+T, +E> = Success(value: T) | Failure(error: E)
}
