/** Byte strings and big-endian numbers. */
module Bytes {
  type Byte = b: int | 0 <= b < 256

  /** The number a big-endian byte string denotes. */
  function BigEndian(b: seq<Byte>): nat {
    if b == [] then 0 else 256 * BigEndian(b[..|b| - 1]) + b[|b| - 1]
  }

  function HexDigit(n: nat): char
    requires n < 16
  {
    if n < 10 then ('0' as int + n) as char else ('a' as int + n - 10) as char
  }

  function HexDigits(b: seq<Byte>): string {
    if b == [] then "" else [HexDigit(b[0] / 16), HexDigit(b[0] % 16)] + HexDigits(b[1..])
  }

  /** `0x`-prefixed hex text. */
  function Hex(b: seq<Byte>): string {
    "0x" + HexDigits(b)
  }
}
