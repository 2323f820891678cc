/** Failure-carrying values: an exception that Python would raise becomes an
    `Err` (or `Some`) value that every caller passes on unchanged. */
module Wrappers {

  datatype Option<+T> = None | Some(value: T)

  datatype Result<+T, +E> = Ok(value: T) | Err(error: E)
}
