/** Optional values and results with an error branch, shared by the other modules. */
module Wrappers {

  /** `None` stands for JavaScript's `undefined` and `null`. */
  datatype Option<+T> = None | Some(value: T)

  /** The outcome of an operation that may throw: `Err` carries what was thrown. */
  datatype Result<+T, +E> = Ok(value: T) | Err(error: E)
}
