/** Failure-compatible wrappers shared by every module of the model. */
module Wrappers {

  /** An optional value: `null`/`undefined` in TypeScript, `None` in Python. */
  datatype Option<T> = None | Some(value: T)

  /** The value of an operation that either returns or raises. */
  datatype Result<T, E> = Ok(value: T) | Err(error: E)

  /** The outcome of an operation that returns nothing or raises. */
  datatype Outcome<E> = Pass | Fail(error: E)
}
