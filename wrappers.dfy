/** Failure-compatible wrappers used for PHP's nullable values and thrown errors. */
module Wrappers {

  /** A nullable value: `None` stands for PHP's `null`. */
  datatype Option<+T> = None | Some(value: T)

  /** The value of a call that either returns normally or throws `error`. */
  datatype Result<+T, +E> = Ok(value: T) | Err(error: E)

  /** The outcome of a `void` operation that may throw `error`. */
  datatype Outcome<+E> = Pass | Fail(error: E)
}
