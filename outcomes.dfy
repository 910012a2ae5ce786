/** Option and Result values used across the model: a value that may be absent, and a
    computation that either yields a value or fails with an error (a thrown exception). */
module Outcomes {
  datatype Option<+T> = None | Some(value: T)

  datatype Result<+T, +E> = Ok(value: T) | Err(error: E)
}
