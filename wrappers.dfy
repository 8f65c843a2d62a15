/** Nullable values and error returns. */
module Wrappers {

  /** A value that may be absent (a nullable column, an `Optional[...]`). */
  datatype Option<+T> = None | Some(value: T)

  /** A value, or the error an operation rejects its input with. */
  datatype Result<+T, +E> = Ok(value: T) | Err(error: E)
}
