/** Optional values and results with an error, as the Go code returns them
    (a nil pointer, or a value together with an `error`). */
module Wrappers {

  datatype Option<+T> = None | Some(value: T)

  datatype Result<+T, +E> = Ok(value: T) | Err(error: E)
}
