/** Option and Result, the two failure-carrying shapes the model uses. */
module Wrappers {

  /** A value or nothing (JavaScript's `null` result of a lookup). */
  datatype Option<+T> = None | Some(value: T)

  /** A resolved value or a rejection (a Promise that resolves or rejects). */
  datatype Result<+T, +E> = Ok(value: T) | Err(error: E)
}
