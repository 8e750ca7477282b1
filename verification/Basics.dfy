/** Values shared by every module: optional values, results and opaque byte strings. */
module Basics {

  datatype Option<+T> = None | Some(value: T)

  datatype Result<+T, +E> = Ok(value: T) | Err(error: E)

  /** An octet string of which only equality and emptiness matter. */
  type Bytes = seq<nat>
}
