/** Option and Result, the two outcomes of the parser's partial steps. */
module Wrappers {

  datatype Option<+T> = None | Some(value: T)

  /** `Err` stands for an exception thrown by the parser: no mesh is produced. */
  datatype Result<+T, +E> = Ok(value: T) | Err(error: E)
}
