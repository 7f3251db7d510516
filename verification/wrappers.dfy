/** The optional-value and result datatypes the rest of the model uses for
    "not found" lookups and for validation outcomes. */
module Wrappers {

  /** A value that may be absent: JavaScript's `T | undefined`. */
  datatype Option<+T> = None | Some(value: T)

  /** Either a successful value or an error description. */
  datatype Result<+R, +E> = Success(value: R) | Failure(error: E)
}
