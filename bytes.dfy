/** Bytes, the ASCII character classes the reader tests, and a conversion
    from ASCII string literals to byte sequences. */
module Bytes {

  newtype byte = x: int | 0 <= x < 256

  datatype Option<+T> = None | Some(value: T)

  /** Rust's `u8::is_ascii_whitespace`: space, tab, line feed, form feed and
      carriage return (vertical tab is not whitespace). */
  predicate IsWhitespace(c: byte) {
    c == 0x20 || c == 0x09 || c == 0x0A || c == 0x0C || c == 0x0D
  }

  predicate IsDigit(c: byte) {
    '0' as byte <= c <= '9' as byte
  }

  predicate IsAlpha(c: byte) {
    ('a' as byte <= c <= 'z' as byte) || ('A' as byte <= c <= 'Z' as byte)
  }

  predicate IsAlnum(c: byte) {
    IsDigit(c) || IsAlpha(c)
  }

  /** `u8::eq_ignore_ascii_case` against a lower-case letter. */
  predicate EqIgnoreCase(c: byte, lower: char)
    requires 'a' <= lower <= 'z'
  {
    c == lower as byte || c == (lower as int - 32) as byte
  }

  /** The bytes of a string of ASCII characters (a character past `0xFF`
      would keep its low eight bits; the model only uses ASCII text). */
  function Ascii(t: string): (r: seq<byte>)
    ensures |r| == |t|
    ensures forall i :: 0 <= i < |t| && t[i] as int < 256 ==> r[i] as int == t[i] as int
  {
    seq(|t|, i requires 0 <= i < |t| => (t[i] as int % 256) as byte)
  }

  // ---------------------------------------------------------------------
  // `str::from_utf8`: well-formed UTF-8 as Unicode defines it (no overlong
  // forms, no surrogates, nothing above U+10FFFF)

  predicate InRange(c: byte, lo: int, hi: int) {
    lo <= c as int <= hi
  }

  /** The length of the well-formed character `s` starts with, or 0 when
      its first bytes are no character. */
  function CharLen(s: seq<byte>): (n: nat)
    ensures n <= 4 && n <= |s|
    ensures n == 1 <==> |s| > 0 && s[0] < 0x80
    ensures forall i :: 1 <= i < n ==> InRange(s[i], 0x80, 0xBF)
  {
    if |s| == 0 then 0
    else var b := s[0];
      if b < 0x80 then 1
      else if InRange(b, 0xC2, 0xDF) then
        if |s| >= 2 && InRange(s[1], 0x80, 0xBF) then 2 else 0
      else if InRange(b, 0xE0, 0xEF) then
        var lo := if b == 0xE0 then 0xA0 else 0x80;
        var hi := if b == 0xED then 0x9F else 0xBF;
        if |s| >= 3 && InRange(s[1], lo, hi) && InRange(s[2], 0x80, 0xBF) then 3 else 0
      else if InRange(b, 0xF0, 0xF4) then
        var lo := if b == 0xF0 then 0x90 else 0x80;
        var hi := if b == 0xF4 then 0x8F else 0xBF;
        if |s| >= 4 && InRange(s[1], lo, hi) && InRange(s[2], 0x80, 0xBF) && InRange(s[3], 0x80, 0xBF)
        then 4 else 0
      else 0
  }

  /** The whole sequence splits into well-formed characters. */
  predicate ValidUtf8(s: seq<byte>)
    decreases |s|
  {
    s == [] || (CharLen(s) > 0 && ValidUtf8(s[CharLen(s)..]))
  }
}
