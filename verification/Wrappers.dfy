/** What the other modules share: the two result shapes, and bytes. */
module Wrappers {

  type Byte = b: int | 0 <= b < 256

  datatype Option<+T> = None | Some(value: T)

  datatype Result<+T, +E> = Ok(value: T) | Err(error: E)
}
