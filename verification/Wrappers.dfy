/** Small value types every part of the model shares. */
module Wrappers {

  datatype Option<+T> = None | Some(value: T)

  /** An octet of a file or of a wire message. */
  newtype byte = i: int | 0 <= i < 256

  const NEWLINE: byte := 10

  function Min(a: nat, b: nat): nat { if a < b then a else b }

  function Max(a: nat, b: nat): nat { if a < b then b else a }
}
