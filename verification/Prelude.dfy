/** Small datatypes shared by every module. */
module Prelude {

  datatype Option<+T> = None | Some(value: T)

  datatype Result<+T, +E> = Ok(value: T) | Err(error: E)

  /** The longest duration, in nanoseconds. */
  const MAX_DURATION := 0x7FFF_FFFF_FFFF_FFFF
}
