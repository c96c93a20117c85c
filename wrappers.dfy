/** Optional values and results, used for nullable columns, parsers and
    operations that either succeed or report an error code. */
module Wrappers {
  datatype Option<+T> = None | Some(value: T)

  datatype Result<+T, +E> = Ok(value: T) | Err(error: E)
}
