/** Optional values and success-or-failure values, used where the source has
    `T | null` or a promise that may reject. */
module Wrappers {

  /** `Some(v)` for a present value, `None` for JavaScript's `null`. */
  datatype Option<+T> = None | Some(value: T)

  /** The outcome of an operation that may fail with an error. */
  datatype Result<+T, +E> = Ok(value: T) | Err(error: E)
}
