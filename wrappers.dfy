/** Optional values and success/failure results, used wherever the
    editor has a value that may be absent or an operation that may fail. */
module Wrappers {

  datatype Option<+T> = None | Some(value: T)

  datatype Result<+T, +E> = Ok(value: T) | Err(error: E)
}
