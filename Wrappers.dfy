/** Optional values (Java's nullable references) and results of operations that can fail. */
module Wrappers {

  /** A Java reference that may be null: None stands for null. */
  datatype Option<+T> = None | Some(value: T)

  /** The value of an operation, or the domain error it raised instead. */
  datatype Result<+T, +E> = Ok(value: T) | Err(error: E)

  /** The outcome of an operation that returns nothing, or the domain error it raised. */
  datatype Outcome<+E> = Pass | Fail(error: E)
}
