/** Optional values (Kotlin's nullable types) and results that carry the
    exception a call would have thrown. */
module Wrappers {

  datatype Option<T> = None | Some(value: T)

  datatype Result<T, E> = Ok(value: T) | Err(error: E)
}
