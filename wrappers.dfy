/** The wrappers used by the model. */
module Wrappers {

  /** An optional value: Go's nil pointer (`*string`, `*sql.DB`) is `None`. */
  datatype Option<+T> = None | Some(value: T)

  /** A value or an error. */
  datatype Result<+T, +E> = Ok(value: T) | Err(error: E)
}
