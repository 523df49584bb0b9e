/**
 * Fixed-width integers and their byte encodings as written by .NET's
 * `BitConverter` on a little-endian machine: `GetBytes(ulong)` gives 8 bytes,
 * `GetBytes(int)` gives the 4 bytes of the two's-complement form, and
 * `ToUInt64` / `ToInt32` read them back.
 */
module Bytes {

  type byte = x: int | 0 <= x < 256

  const UInt64Bound: int := 0x1_0000_0000_0000_0000
  const UInt32Bound: int := 0x1_0000_0000
  const Int32Half: int := 0x8000_0000

  type uint64 = x: int | 0 <= x < 0x1_0000_0000_0000_0000
  type int32 = x: int | -0x8000_0000 <= x < 0x8000_0000

  /** 256 to the power n: the number of distinct values n bytes can hold. */
  function Pow256(n: nat): (r: nat)
    ensures r >= 1
  {
    if n == 0 then 1 else 256 * Pow256(n - 1)
  }

  /** The n-byte little-endian encoding of x: least significant byte first. */
  function EncodeLE(x: nat, n: nat): (r: seq<byte>)
    requires x < Pow256(n)
    ensures |r| == n
    ensures n > 0 ==> r[0] == x % 256
  {
    if n == 0 then [] else [x % 256] + EncodeLE(x / 256, n - 1)
  }

  /** The value of a little-endian byte sequence. */
  function DecodeLE(b: seq<byte>): (r: nat)
    ensures r < Pow256(|b|)
  {
    if b == [] then 0 else b[0] + 256 * DecodeLE(b[1..])
  }

  /** Decoding an encoding gives back the number. */
  lemma {:induction false} DecodeEncodeLE(x: nat, n: nat)
    requires x < Pow256(n)
    ensures DecodeLE(EncodeLE(x, n)) == x
  {
    if n > 0 {
      var e := EncodeLE(x, n);
      assert e[1..] == EncodeLE(x / 256, n - 1);
      DecodeEncodeLE(x / 256, n - 1);
    }
  }

  /** Encoding a decoded sequence gives back the same bytes. */
  lemma {:induction false} EncodeDecodeLE(b: seq<byte>)
    ensures EncodeLE(DecodeLE(b), |b|) == b
  {
    if b != [] {
      var d := DecodeLE(b[1..]);
      assert (b[0] + 256 * d) / 256 == d;
      EncodeDecodeLE(b[1..]);
    }
  }

  lemma Pow256Widths()
    ensures Pow256(4) == UInt32Bound
    ensures Pow256(8) == UInt64Bound
  {
    assert Pow256(2) == 0x1_0000;
    assert Pow256(4) == 0x1_0000_0000;
    assert Pow256(6) == 0x1_0000_0000_0000;
  }

  /** `BitConverter.GetBytes(ulong)`. */
  function EncodeUInt64(x: uint64): (r: seq<byte>)
    ensures |r| == 8
  {
    Pow256Widths();
    EncodeLE(x, 8)
  }

  /** `BitConverter.ToUInt64(bytes, 0)` on an 8-byte array. */
  function DecodeUInt64(b: seq<byte>): (r: uint64)
    requires |b| == 8
    ensures EncodeUInt64(r) == b
  {
    Pow256Widths();
    EncodeDecodeLE(b);
    DecodeLE(b)
  }

  /** Every 64-bit value survives the 8-byte encoding. */
  lemma DecodeEncodeUInt64(x: uint64)
    ensures DecodeUInt64(EncodeUInt64(x)) == x
  {
    Pow256Widths();
    DecodeEncodeLE(x, 8);
  }

  /** `BitConverter.GetBytes(int)`: the two's-complement bit pattern, little-endian. */
  function EncodeInt32(v: int32): (r: seq<byte>)
    ensures |r| == 4
  {
    Pow256Widths();
    EncodeLE(if v < 0 then v + UInt32Bound else v, 4)
  }

  /** `BitConverter.ToInt32(bytes, 0)` on a 4-byte array. */
  function DecodeInt32(b: seq<byte>): (r: int32)
    requires |b| == 4
    ensures EncodeInt32(r) == b
  {
    Pow256Widths();
    EncodeDecodeLE(b);
    var u := DecodeLE(b);
    if u >= Int32Half then u - UInt32Bound else u
  }

  /** Every 32-bit signed value survives the 4-byte encoding, negative ones included. */
  lemma DecodeEncodeInt32(v: int32)
    ensures DecodeInt32(EncodeInt32(v)) == v
  {
    Pow256Widths();
    var u := if v < 0 then v + UInt32Bound else v;
    DecodeEncodeLE(u, 4);
  }
}
