/** Failure-carrying values shared by the modules of this model. */
module Wrappers {

  /** A value that may be absent; `None` stands for a C# `null` reference. */
  datatype Option<+T> = None | Some(value: T)

  /** The outcome of an operation that can throw; `Err` names the exception raised. */
  datatype Result<+T, +E> = Ok(value: T) | Err(error: E)
}
