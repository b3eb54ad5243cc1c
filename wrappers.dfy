/** Option and result types for the outcomes of remote calls and of store operations. */
module Wrappers {

  datatype Option<+T> = None | Some(value: T)

  /** The value a call resolves to, or the error it throws. */
  datatype Result<+R, +E> = Ok(value: R) | Err(error: E)

  /** A call that resolves to nothing, or throws. */
  datatype Outcome<+E> = Pass | Fail(error: E)
}
