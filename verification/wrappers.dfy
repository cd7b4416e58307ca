/** Optional values and results, used for JavaScript's `undefined` and for thrown errors. */
module Wrappers {

  /** A value that may be absent (`undefined` in the source). */
  datatype Option<+T> = None | Some(value: T)

  /** Either a computed value or the error that aborts the run. */
  datatype Result<+T, +E> = Ok(value: T) | Err(error: E)
}
