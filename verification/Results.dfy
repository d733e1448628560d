/** The two result shapes used throughout: an optional value, and a value or the error thrown. */
module Results {
  datatype Option<+T> = None | Some(value: T)

  datatype Result<+T, +E> = Ok(value: T) | Err(error: E)
}
