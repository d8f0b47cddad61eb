/** UTF-8, the byte form in which the encodings carry strings. */
module Utf8 {
  import opened Bytes
  import opened Wrappers

  function CharBytes(c: char): seq<Byte> {
    var n := c as int;
    var n1, n2, n3 := n / 64, n / 64 / 64, n / 64 / 64 / 64;
    if n < 0x80 then [n]
    else if n < 0x800 then [0xC0 + n1, 0x80 + n % 64]
    else if n < 0x10000 then [0xE0 + n2, 0x80 + n1 % 64, 0x80 + n % 64]
    else [0xF0 + n3, 0x80 + n2 % 64, 0x80 + n1 % 64, 0x80 + n % 64]
  }

  function Utf8Bytes(s: string): seq<Byte> {
    if s == "" then [] else CharBytes(s[0]) + Utf8Bytes(s[1..])
  }

  /** The first byte says how many there are. */
  function LengthFrom(first: Byte): nat {
    if first < 0x80 then 1 else if first < 0xE0 then 2 else if first < 0xF0 then 3 else 4
  }

  lemma CharLength(c: char)
    ensures |CharBytes(c)| == LengthFrom(CharBytes(c)[0])
  {
  }

  /** The scalar value back from the bytes. */
  function Scalar(b: seq<Byte>): int
    requires 1 <= |b| <= 4
  {
    var last := (b[|b| - 1] as int) - 0x80;
    if |b| == 1 then b[0] as int
    else if |b| == 2 then ((b[0] as int) - 0xC0) * 64 + last
    else if |b| == 3 then (((b[0] as int) - 0xE0) * 64 + (b[1] as int) - 0x80) * 64 + last
    else ((((b[0] as int) - 0xF0) * 64 + (b[1] as int) - 0x80) * 64 + (b[2] as int) - 0x80) * 64 + last
  }

  lemma ScalarOf(c: char)
    ensures Scalar(CharBytes(c)) == c as int
  {
  }

  /** The text a byte string spells, if it spells one. */
  function Utf8Text(b: seq<Byte>): Option<string> {
    if b == [] then Some("")
    else
      var n := LengthFrom(b[0]);
      if |b| < n then None
      else
        var c := Scalar(b[..n]);
        if !(0 <= c < 0xD800 || 0xE000 <= c < 0x11_0000) then None
        else
          match Utf8Text(b[n..])
          case None => None
          case Some(rest) => Some([c as char] + rest)
  }

  /** Every string is what its bytes spell. */
  lemma {:induction false} Utf8RoundTrip(s: string)
    ensures Utf8Text(Utf8Bytes(s)) == Some(s)
  {
    hide CharBytes, Scalar, LengthFrom;
    if s != "" {
      var c, rest := s[0], Utf8Bytes(s[1..]);
      var b := CharBytes(c) + rest;
      CharLength(c);
      ScalarOf(c);
      assert |CharBytes(c)| > 0 by { CharHasBytes(c); }
      assert b[0] == CharBytes(c)[0] && b[..|CharBytes(c)|] == CharBytes(c) && b[|CharBytes(c)|..] == rest;
      Utf8RoundTrip(s[1..]);
      assert [s[0]] + s[1..] == s;
    }
  }

  lemma CharHasBytes(c: char)
    ensures |CharBytes(c)| > 0
  {
  }

  /** Different strings have different bytes. */
  lemma Utf8Injective(s: string, t: string)
    requires Utf8Bytes(s) == Utf8Bytes(t)
    ensures s == t
  {
    Utf8RoundTrip(s);
    Utf8RoundTrip(t);
  }
}
