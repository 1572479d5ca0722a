/** The two result shapes used throughout the model. */
module Wrappers {

  datatype Option<+T> = None | Some(value: T)

  /** `Err` stands for a thrown exception or an error reply. */
  datatype Result<+T, +E> = Ok(value: T) | Err(error: E)
}
