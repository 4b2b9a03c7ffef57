/** Optional values and success-or-error results, used wherever the Go code
    returns a value together with an `error` or a `(value, ok)` pair. */
module Wrappers {

  datatype Option<+T> = None | Some(value: T)

  datatype Result<+T, +E> = Ok(value: T) | Err(error: E)
}
