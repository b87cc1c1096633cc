/** Plain Option and Result datatypes shared by the two admission hooks. */
module Wrappers {

  /** A value that may be absent; `None` models Go's nil map or a missing entry. */
  datatype Option<+T> = None | Some(value: T)

  /** The outcome of an operation that either yields a value or fails with an error. */
  datatype Result<+R, +E> = Success(value: R) | Failure(error: E)
}
