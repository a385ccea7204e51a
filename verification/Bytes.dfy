/** Bytes, as the tools that rewrite or quote files and arguments see them. */
module Bytes {
  type Byte = x: int | 0 <= x < 256

  const NEWLINE: Byte := 10
  const BACKSLASH: Byte := 92

  /** A backslash and the three octal digits of a byte. */
  function Octal(b: Byte): seq<Byte> {
    [BACKSLASH, 48 + b / 64, 48 + b / 8 % 8, 48 + b % 8]
  }

  predicate IsOctal(b: Byte) {
    48 <= b < 56
  }
}
