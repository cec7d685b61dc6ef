/** Option and Result, used for the source's `null` values and its early-return error paths. */
module Wrappers {

  /** A value that may be absent (`null` / `undefined` in the source). */
  datatype Option<+T> = None | Some(value: T)

  /** The outcome of a check that either yields a value or names why it failed. */
  datatype Result<+T, +E> = Ok(value: T) | Err(error: E)
}
