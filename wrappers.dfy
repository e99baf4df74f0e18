/** Option and Result, the error-return shapes of the Go code. */
module Wrappers {
  datatype Option<+T> = None | Some(value: T)

  datatype Result<+T, +E> = Ok(value: T) | Err(error: E)
}

/** Bytes, and the convention that a Go string is written as one char per byte. */
module Bytes {
  type byte = x: int | 0 <= x < 256

  /** A char that stands for one byte of a Go string. */
  predicate IsByteChar(c: char) {
    c as int < 256
  }

  predicate IsByteString(s: string) {
    forall i :: 0 <= i < |s| ==> IsByteChar(s[i])
  }

  /** The char that stands for byte `b`. */
  function ByteChar(b: byte): (c: char)
    ensures IsByteChar(c) && c as int == b
  {
    b as char
  }
}
