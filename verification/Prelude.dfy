/** Shared vocabulary of the model: optional values and bytes. */
module Prelude {

  datatype Option<+T> = None | Some(value: T)

  datatype Result<+T> = Ok(value: T) | Err(error: string)

  newtype Byte = b: int | 0 <= b < 256
}
