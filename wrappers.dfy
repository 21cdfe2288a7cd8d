/** Option and Result values standing for C#'s null and for thrown exceptions. */
module Wrappers {

  /** `None` plays the part of a C# null reference. */
  datatype Option<+T> = None | Some(value: T)

  /** The outcome of a C# call that either returns a value or throws. */
  datatype Result<+T, +E> = Ok(value: T) | Err(error: E)

  /** The outcome of a C# `void` call that either returns or throws. */
  datatype Outcome<+E> = Pass | Fail(error: E)
}
