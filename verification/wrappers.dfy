/** Small failure-carrying wrappers shared by the modules of this model. */
module Wrappers {

  /** A value that may be absent: the model of a nullable pointer or a failed lookup. */
  datatype Option<+T> = None | Some(value: T)

  /** The outcome of a step that either succeeds with a value or fails with an error. */
  datatype Result<+T, +E> = Ok(value: T) | Err(error: E)

  /** The outcome of a step that produces nothing but may fail. */
  datatype Outcome<+E> = Pass | Fail(error: E)
}
