/**
 * `str::as_bytes`: a Rust string is stored as its UTF-8 encoding. The digest
 * code feeds these bytes to PBKDF2, so two passwords are told apart by
 * PBKDF2 only if their encodings differ; the encoding is injective.
 */
module Utf8 {
  import opened Primitives

  /** The UTF-8 encoding of one Unicode scalar value (1 to 4 bytes). */
  function EncodeChar(c: char): (r: bytes)
    ensures 1 <= |r| <= 4
    ensures |r| == LeadLength(r[0])
  {
    var n := c as int;
    if n < 0x80 then
      [n as u8]
    else if n < 0x800 then
      [(0xC0 + n / 0x40) as u8, (0x80 + n % 0x40) as u8]
    else if n < 0x1_0000 then
      [(0xE0 + n / 0x1000) as u8, (0x80 + n / 0x40 % 0x40) as u8, (0x80 + n % 0x40) as u8]
    else
      [(0xF0 + n / 0x4_0000) as u8, (0x80 + n / 0x1000 % 0x40) as u8,
       (0x80 + n / 0x40 % 0x40) as u8, (0x80 + n % 0x40) as u8]
  }

  /** The length of an encoded scalar value, read off its lead byte. */
  function LeadLength(b: u8): nat
  {
    if b < 0x80 then 1 else if b < 0xE0 then 2 else if b < 0xF0 then 3 else 4
  }

  /** The scalar value a well-formed 1 to 4 byte sequence encodes. */
  function CodePoint(r: bytes): int
    requires 1 <= |r| <= 4
  {
    var low := if |r| == 1 then 0 else r[|r| - 1] as int - 0x80;
    var mid := if |r| < 3 then 0 else r[|r| - 2] as int - 0x80;
    var high := if |r| < 4 then 0 else r[1] as int - 0x80;
    if |r| == 1 then r[0] as int
    else if |r| == 2 then (r[0] as int - 0xC0) * 0x40 + low
    else if |r| == 3 then (r[0] as int - 0xE0) * 0x1000 + mid * 0x40 + low
    else (r[0] as int - 0xF0) * 0x4_0000 + high * 0x1000 + mid * 0x40 + low
  }

  /** Decoding one encoded scalar value gives it back. */
  lemma CodePointOfEncoding(c: char)
    ensures CodePoint(EncodeChar(c)) == c as int
  {
  }

  /** `s.as_bytes()`: the concatenated encodings of the characters of `s`. */
  function AsBytes(s: string): (r: bytes)
    ensures |s| <= |r| <= 4 * |s|
  {
    if s == [] then [] else EncodeChar(s[0]) + AsBytes(s[1..])
  }

  lemma AsBytesAppend(s: string, t: string)
    ensures AsBytes(s + t) == AsBytes(s) + AsBytes(t)
  {
    if s == [] {
      assert s + t == t;
    } else {
      assert (s + t)[1..] == s[1..] + t;
      AsBytesAppend(s[1..], t);
    }
  }

  /** Two strings with the same bytes are the same string. */
  lemma {:induction false} AsBytesInjective(s: string, t: string)
    requires AsBytes(s) == AsBytes(t)
    ensures s == t
  {
    if s != [] && t != [] {
      var a, b := EncodeChar(s[0]), EncodeChar(t[0]);
      assert AsBytes(s) == a + AsBytes(s[1..]);
      assert AsBytes(t) == b + AsBytes(t[1..]);
      assert a[0] == AsBytes(s)[0] == b[0];
      assert |a| == |b|;
      assert a == AsBytes(s)[..|a|] == b;
      CodePointOfEncoding(s[0]);
      CodePointOfEncoding(t[0]);
      assert s[0] == t[0];
      assert AsBytes(s[1..]) == AsBytes(s)[|a|..] == AsBytes(t[1..]);
      AsBytesInjective(s[1..], t[1..]);
    }
  }
}
