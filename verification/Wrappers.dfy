/** Optional values and fallible results, shared by every module. */
module Wrappers {

  /** A nullable column, or a Go pointer that may be nil. */
  datatype Option<+T> = None | Some(value: T)

  /** The two error families that repository methods return. */
  datatype Failure = Internal | NotFound

  /** A Go `(value, error)` pair. */
  datatype Result<+T> = Ok(value: T) | Err(error: Failure)
}
