/** Option and Result, the failure-carrying values used across the model. */
module Wrappers {

  datatype Option<+T> = None | Some(value: T)

  /** The outcome of an operation that the source aborts on (an `assert(false)`
      after a diagnostic): either a value or the reason for the abort. */
  datatype Result<+T, +E> = Ok(value: T) | Err(error: E)
}
