/** Failure-carrying wrappers used by the session model. */
module Outcomes {

  /** A value that may be absent (a dialog cancelled, a centroid of no points). */
  datatype Option<+T> = None | Some(value: T)

  /** Either a value or the error the program reports instead of it. */
  datatype Result<+T, +E> = Ok(value: T) | Err(error: E)
}
