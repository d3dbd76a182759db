/** Byte strings, the common currency of the core: Go strings and
    `[]byte` values are both sequences of bytes here. */
module Bytes {

  type byte = bv8

  /** A Go `[]byte` (a serialised payload). */
  type Bytes = seq<byte>

  /** A Go `string`: an immutable sequence of bytes, with no encoding implied. */
  type GoString = seq<byte>

  datatype Option<+T> = None | Some(value: T)
}
