/**
 * UTF-8, as used by `Encoding.UTF8.GetBytes` and `Encoding.UTF8.GetString`
 * for the origin header. A Dafny `char` is a Unicode scalar value, so every
 * string has exactly one UTF-8 encoding. A .NET string is UTF-16 and can hold
 * an unpaired surrogate, which `GetBytes` replaces; such text is outside this
 * model.
 */
module Utf8 {
  import opened Bytes

  const ReplacementChar: char := 0xFFFD as char

  predicate IsContinuation(b: byte) {
    0x80 <= b < 0xC0
  }

  /** The 1 to 4 bytes of one scalar value: its bits split into 6-bit groups,
    * the leading byte marking the length and each further byte tagged 10xxxxxx. */
  function EncodeChar(c: char): (r: seq<byte>)
    ensures 1 <= |r| <= 4
    ensures (|r| == 1) <==> (c as int < 0x80)
  {
    var cp := c as int;
    var q1 := cp / 64;
    var q2 := q1 / 64;
    if cp < 0x80 then [cp]
    else if cp < 0x800 then [0xC0 + q1, 0x80 + cp % 64]
    else if cp < 0x1_0000 then [0xE0 + q2, 0x80 + q1 % 64, 0x80 + cp % 64]
    else [0xF0 + q2 / 64, 0x80 + q2 % 64, 0x80 + q1 % 64, 0x80 + cp % 64]
  }

  /** `Encoding.UTF8.GetBytes(s)`. */
  function Encode(s: string): (r: seq<byte>)
    ensures |r| >= |s|
    ensures s != [] ==> r != []
  {
    if s == [] then [] else EncodeChar(s[0]) + Encode(s[1..])
  }

  /** Reads one scalar value from the front of b: the character and how many bytes it used.
    * A byte that does not start a well-formed sequence becomes U+FFFD and is skipped. */
  function DecodeOne(b: seq<byte>): (r: (char, nat))
    requires |b| > 0
    ensures 1 <= r.1 <= |b|
  {
    var b0: int := b[0];
    if b0 < 0x80 then
      (b0 as char, 1)
    else if 0xC2 <= b0 < 0xE0 && |b| >= 2 && IsContinuation(b[1]) then
      (Join2(b0 - 0xC0, b[1]) as char, 2)
    else if 0xE0 <= b0 < 0xF0 && |b| >= 3 && IsContinuation(b[1]) && IsContinuation(b[2])
      && 0x800 <= Join3(b0 - 0xE0, b[1], b[2]) && !(0xD800 <= Join3(b0 - 0xE0, b[1], b[2]) < 0xE000) then
      (Join3(b0 - 0xE0, b[1], b[2]) as char, 3)
    else if 0xF0 <= b0 < 0xF5 && |b| >= 4 && IsContinuation(b[1]) && IsContinuation(b[2]) && IsContinuation(b[3])
      && 0x1_0000 <= Join4(b0 - 0xF0, b[1], b[2], b[3]) < 0x11_0000 then
      (Join4(b0 - 0xF0, b[1], b[2], b[3]) as char, 4)
    else
      (ReplacementChar, 1)
  }

  /** The value of a lead-byte payload followed by continuation bytes. */
  function Join2(lead: int, c1: int): int { lead * 64 + (c1 - 0x80) }
  function Join3(lead: int, c1: int, c2: int): int { Join2(lead, c1) * 64 + (c2 - 0x80) }
  function Join4(lead: int, c1: int, c2: int, c3: int): int { Join3(lead, c1, c2) * 64 + (c3 - 0x80) }

  /** `Encoding.UTF8.GetString(bytes)`. */
  function Decode(b: seq<byte>): (r: string)
    ensures |r| <= |b|
    decreases |b|
  {
    if b == [] then "" else
      var (c, n) := DecodeOne(b);
      [c] + Decode(b[n..])
  }

  lemma DecodeOneEncodeChar(c: char, rest: seq<byte>)
    ensures DecodeOne(EncodeChar(c) + rest) == (c, |EncodeChar(c)|)
  {
    var cp := c as int;
    var q1 := cp / 64;
    var q2 := q1 / 64;
    var b := EncodeChar(c) + rest;
    assert cp == 64 * q1 + cp % 64;
    assert q1 == 64 * q2 + q1 % 64;
    if cp < 0x80 {
    } else if cp < 0x800 {
      assert Join2(b[0] - 0xC0, b[1]) == cp;
    } else if cp < 0x1_0000 {
      assert Join3(b[0] - 0xE0, b[1], b[2]) == cp;
    } else {
      assert q2 == 64 * (q2 / 64) + q2 % 64;
      assert Join4(b[0] - 0xF0, b[1], b[2], b[3]) == cp;
    }
  }

  /** Decoding the UTF-8 bytes of a string gives the string back. */
  lemma {:induction false} DecodeEncode(s: string)
    ensures Decode(Encode(s)) == s
  {
    if s != [] {
      var e := EncodeChar(s[0]);
      var rest := Encode(s[1..]);
      DecodeOneEncodeChar(s[0], rest);
      assert (e + rest)[|e|..] == rest;
      DecodeEncode(s[1..]);
    }
  }
}
