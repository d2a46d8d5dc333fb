/** Optional values and call results, shared by the other modules. */
module Wrappers {

  /** A value that may be absent (JavaScript `undefined`). */
  datatype Option<T> = None | Some(value: T)

  /** A completed call: its value, or the error it was rejected with. */
  datatype Result<T, E> = Ok(value: T) | Err(error: E)
}
