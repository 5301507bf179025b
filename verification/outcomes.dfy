/** Failure-carrying values shared by the modules of the model. */
module Outcomes {

  /** A value that may be absent (Python `None`, a missing header). */
  datatype Option<+T> = None | Some(value: T)

  /** The outcome of an operation that can fail: a raised exception in the
      Python service, an `Err` in the Rust probe. */
  datatype Result<+T, +E> = Ok(value: T) | Err(error: E)
}
