/** What every part of the model shares. */
module Basics {
  datatype Option<+T> = None | Some(value: T)

  /** An octet as a number, and an 8-bit counter. */
  type Byte = n: nat | n < 256
}
