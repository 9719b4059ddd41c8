/** Optional values and error-or-value results, shared by every module. */
module Wrappers {

  /** An optional value: `None` stands for a null pointer or an absent entry. */
  datatype Option<+T> = None | Some(value: T)

  /** The outcome of an operation that can throw: `Err` carries what was thrown. */
  datatype Result<+T, +E> = Ok(value: T) | Err(error: E)
}
