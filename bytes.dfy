/**
 * Octets and the handful of Node.js `Buffer` operations the server relies on:
 * little-endian integer encodings, their decoders, in-place writes into an
 * allocated buffer, and `Buffer.concat`.
 */
module Bytes {

  /** One octet of a Node.js `Buffer`. */
  type byte = x: int | 0 <= x < 256

  const TwoTo16: int := 0x1_0000
  const TwoTo32: int := 0x1_0000_0000

  /** The bytes `Buffer.write` stores for a string of ASCII characters. */
  function Ascii(s: string): (r: seq<byte>)
    requires forall i | 0 <= i < |s| :: s[i] as int < 128
    ensures |r| == |s|
  {
    seq(|s|, i requires 0 <= i < |s| => s[i] as int)
  }

  /** Unsigned 16-bit little-endian encoding, as `writeUInt16LE` stores it. */
  function U16LE(v: int): (r: seq<byte>)
    requires 0 <= v < TwoTo16
    ensures |r| == 2
  {
    [v % 256, v / 256]
  }

  /** Unsigned 32-bit little-endian encoding, as `writeUInt32LE` stores it. */
  function U32LE(v: int): (r: seq<byte>)
    requires 0 <= v < TwoTo32
    ensures |r| == 4
  {
    [v % 256, (v / 0x100) % 256, (v / 0x1_0000) % 256, v / 0x100_0000]
  }

  /** Signed 16-bit little-endian (two's complement) encoding, as `writeInt16LE` stores it. */
  function I16LE(v: int): (r: seq<byte>)
    requires -0x8000 <= v < 0x8000
    ensures |r| == 2
  {
    U16LE(if v < 0 then v + TwoTo16 else v)
  }

  /** `readUInt16LE(offset)`. */
  function ReadU16LE(b: seq<byte>, offset: nat): (v: int)
    requires offset + 2 <= |b|
    ensures 0 <= v < TwoTo16
  {
    b[offset] as int + 0x100 * (b[offset + 1] as int)
  }

  /** `readUInt32LE(offset)`. */
  function ReadU32LE(b: seq<byte>, offset: nat): (v: int)
    requires offset + 4 <= |b|
    ensures 0 <= v < TwoTo32
  {
    b[offset] as int + 0x100 * (b[offset + 1] as int)
      + 0x1_0000 * (b[offset + 2] as int) + 0x100_0000 * (b[offset + 3] as int)
  }

  /** `readInt16LE(offset)`: the two bytes read as a two's complement 16-bit value. */
  function ReadI16LE(b: seq<byte>, offset: nat): (v: int)
    requires offset + 2 <= |b|
    ensures -0x8000 <= v < 0x8000
    ensures v >= 0 <==> b[offset + 1] < 0x80
  {
    var u := ReadU16LE(b, offset);
    if u < 0x8000 then u else u - TwoTo16
  }

  lemma U16RoundTrip(v: int)
    requires 0 <= v < TwoTo16
    ensures ReadU16LE(U16LE(v), 0) == v
  {
  }

  lemma U32RoundTrip(v: int)
    requires 0 <= v < TwoTo32
    ensures ReadU32LE(U32LE(v), 0) == v
  {
    var q1 := v / 0x100;
    var q2 := q1 / 0x100;
    var q3 := q2 / 0x100;
    assert v == v % 256 + 0x100 * q1;
    assert q1 == q1 % 256 + 0x100 * q2;
    assert q2 == q2 % 256 + 0x100 * q3;
    assert v / 0x1_0000 == q2;
    assert v / 0x100_0000 == q3;
  }

  lemma I16RoundTrip(v: int)
    requires -0x8000 <= v < 0x8000
    ensures ReadI16LE(I16LE(v), 0) == v
  {
    U16RoundTrip(if v < 0 then v + TwoTo16 else v);
  }

  /** Decoding and re-encoding a sample gives back the same two bytes. */
  lemma I16Canonical(b: seq<byte>, offset: nat)
    requires offset + 2 <= |b|
    ensures I16LE(ReadI16LE(b, offset)) == b[offset..offset + 2]
  {
  }

  /** A field read back from wherever its encoding was stored. */
  lemma ReadU16At(b: seq<byte>, offset: nat, v: int)
    requires 0 <= v < TwoTo16 && offset + 2 <= |b|
    requires b[offset..offset + 2] == U16LE(v)
    ensures ReadU16LE(b, offset) == v
  {
    U16RoundTrip(v);
  }

  lemma ReadU32At(b: seq<byte>, offset: nat, v: int)
    requires 0 <= v < TwoTo32 && offset + 4 <= |b|
    requires b[offset..offset + 4] == U32LE(v)
    ensures ReadU32LE(b, offset) == v
  {
    U32RoundTrip(v);
  }

  lemma ReadI16At(b: seq<byte>, offset: nat, v: int)
    requires -0x8000 <= v < 0x8000 && offset + 2 <= |b|
    requires b[offset..offset + 2] == I16LE(v)
    ensures ReadI16LE(b, offset) == v
  {
    I16RoundTrip(v);
  }

  /** Reading inside a stored part of a buffer reads that part. */
  lemma ReadsThrough(b: seq<byte>, start: nat, part: seq<byte>)
    requires start + |part| <= |b| && b[start..start + |part|] == part
    ensures forall off: nat | off + 2 <= |part| :: ReadU16LE(b, start + off) == ReadU16LE(part, off)
    ensures forall off: nat | off + 2 <= |part| :: ReadI16LE(b, start + off) == ReadI16LE(part, off)
    ensures forall off: nat | off + 4 <= |part| :: ReadU32LE(b, start + off) == ReadU32LE(part, off)
  {
  }

  /** `Buffer.concat(chunks)`: the bytes of every chunk, in order. */
  function Concat(chunks: seq<seq<byte>>): seq<byte>
  {
    if chunks == [] then [] else chunks[0] + Concat(chunks[1..])
  }

  lemma {:induction false} ConcatAppend(a: seq<seq<byte>>, b: seq<seq<byte>>)
    ensures Concat(a + b) == Concat(a) + Concat(b)
  {
    if a == [] {
      assert a + b == b;
    } else {
      assert (a + b)[1..] == a[1..] + b;
      ConcatAppend(a[1..], b);
    }
  }

  /** Concatenating chunks of whole 16-bit samples gives whole 16-bit samples. */
  lemma {:induction false} ConcatEven(chunks: seq<seq<byte>>)
    requires forall i | 0 <= i < |chunks| :: |chunks[i]| % 2 == 0
    ensures |Concat(chunks)| % 2 == 0
  {
    if chunks != [] {
      ConcatEven(chunks[1..]);
    }
  }

  /** Stores `bytes` at `offset`; every other byte of `buf` keeps its value. */
  method WriteBytes(buf: array<byte>, bytes: seq<byte>, offset: nat)
    requires offset + |bytes| <= buf.Length
    modifies buf
    ensures buf[..] == old(buf[..])[..offset] + bytes + old(buf[..])[offset + |bytes|..]
  {
    forall k | offset <= k < offset + |bytes| {
      buf[k] := bytes[k - offset];
    }
    assert buf[..] == old(buf[..])[..offset] + bytes + old(buf[..])[offset + |bytes|..];
  }

  /** `buf.write(s, offset)` for an ASCII string that fits. */
  method WriteAscii(buf: array<byte>, s: string, offset: nat)
    requires forall i | 0 <= i < |s| :: s[i] as int < 128
    requires offset + |s| <= buf.Length
    modifies buf
    ensures buf[..] == old(buf[..])[..offset] + Ascii(s) + old(buf[..])[offset + |s|..]
  {
    WriteBytes(buf, Ascii(s), offset);
  }

  /** `buf.writeUInt16LE(v, offset)`. */
  method WriteUInt16LE(buf: array<byte>, v: int, offset: nat)
    requires 0 <= v < TwoTo16
    requires offset + 2 <= buf.Length
    modifies buf
    ensures buf[..] == old(buf[..])[..offset] + U16LE(v) + old(buf[..])[offset + 2..]
  {
    WriteBytes(buf, U16LE(v), offset);
  }

  /** `buf.writeUInt32LE(v, offset)`. */
  method WriteUInt32LE(buf: array<byte>, v: int, offset: nat)
    requires 0 <= v < TwoTo32
    requires offset + 4 <= buf.Length
    modifies buf
    ensures buf[..] == old(buf[..])[..offset] + U32LE(v) + old(buf[..])[offset + 4..]
  {
    WriteBytes(buf, U32LE(v), offset);
  }

  /** `buf.writeInt16LE(v, offset)`. */
  method WriteInt16LE(buf: array<byte>, v: int, offset: nat)
    requires -0x8000 <= v < 0x8000
    requires offset + 2 <= buf.Length
    modifies buf
    ensures buf[..] == old(buf[..])[..offset] + I16LE(v) + old(buf[..])[offset + 2..]
  {
    WriteBytes(buf, I16LE(v), offset);
  }
}
