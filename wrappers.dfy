/** Optional values and results: `undefined`/`null` and thrown errors of the source. */
module Wrappers {

  datatype Option<+T> = None | Some(value: T)

  datatype Result<+T, +E> = Ok(value: T) | Err(error: E)

  /** Bytes of a file or a buffer. */
  type Bytes = seq<bv8>
}
