/** An optional value. */
module Wrappers {
  datatype Option<+T> = None | Some(value: T)
}

/** A value or an error. */
module Results {
  datatype Result<+T, +E> = Ok(value: T) | Err(error: E)
}
