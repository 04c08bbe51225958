/** Absent-or-present values, used where the program has `None`. */
module Wrappers {

  datatype Option<+T> = None | Some(value: T)

  /** A value, or the error the program would raise. */
  datatype Result<+T, +E> = Ok(value: T) | Err(error: E)
}
