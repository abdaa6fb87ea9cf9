/** Option and Result values shared by the analysis modules. */
module Wrappers {

  /** An optional value; `None` stands for Python's `None`. */
  datatype Option<+T> = None | Some(value: T)

  /** The outcome of a computation that can fail. */
  datatype Result<+T, +E> = Ok(value: T) | Err(error: E)
}
