/** Bytes and the little-endian integer encodings Node's `Buffer` writes. */
module Bytes {

  newtype byte = b: int | 0 <= b < 256

  const TwoTo16: nat := 0x1_0000
  const TwoTo32: nat := 0x1_0000_0000

  /** The bytes `buffer.writeUInt16LE(v, offset)` stores, low byte first. */
  function EncodeU16LE(v: nat): (r: seq<byte>)
    requires v < TwoTo16
    ensures |r| == 2
  {
    [(v % 256) as byte, (v / 256) as byte]
  }

  /** The bytes `buffer.writeUInt32LE(v, offset)` stores, low byte first. */
  function EncodeU32LE(v: nat): (r: seq<byte>)
    requires v < TwoTo32
    ensures |r| == 4
  {
    [(v % 256) as byte, (v / 256 % 256) as byte, (v / 256 / 256 % 256) as byte, (v / 256 / 256 / 256) as byte]
  }

  /** The unsigned 16-bit little-endian integer stored at `offset`. */
  function ReadU16LE(s: seq<byte>, offset: nat): nat
    requires offset + 2 <= |s|
  {
    s[offset] as nat + 0x100 * s[offset + 1] as nat
  }

  /** The unsigned 32-bit little-endian integer stored at `offset`. */
  function ReadU32LE(s: seq<byte>, offset: nat): nat
    requires offset + 4 <= |s|
  {
    s[offset] as nat + 0x100 * s[offset + 1] as nat
      + 0x1_0000 * s[offset + 2] as nat + 0x100_0000 * s[offset + 3] as nat
  }

  /** Reading back a written 16-bit field gives the value written. */
  lemma U16RoundTrip(v: nat)
    requires v < TwoTo16
    ensures ReadU16LE(EncodeU16LE(v), 0) == v
  {
  }

  /** Reading back a written 32-bit field gives the value written. */
  lemma U32RoundTrip(v: nat)
    requires v < TwoTo32
    ensures ReadU32LE(EncodeU32LE(v), 0) == v
  {
    var q0 := v / 256;
    var q1 := q0 / 256;
    var q2 := q1 / 256;
    assert v == v % 256 + 256 * q0;
    assert q0 == q0 % 256 + 256 * q1;
    assert q1 == q1 % 256 + 256 * q2;
  }

  /** The ASCII bytes of a tag such as "RIFF", as `buffer.write(tag)` stores them. */
  function Ascii(s: string): (r: seq<byte>)
    requires forall i :: 0 <= i < |s| ==> s[i] as int < 128
    ensures |r| == |s|
    ensures forall i :: 0 <= i < |s| ==> r[i] as int == s[i] as int
  {
    seq(|s|, i requires 0 <= i < |s| => s[i] as int as byte)
  }
}
