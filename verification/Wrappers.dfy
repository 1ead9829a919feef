/** Option and Result values shared by every module of the project. */
module Wrappers {

  datatype Option<+T> = None | Some(value: T)

  /** The source's exceptions: a computation either returns or throws. */
  datatype Result<+T, +E> = Ok(value: T) | Throws(error: E)
}
