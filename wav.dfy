/**
 * `convertPCMToWAV`: amplify 16-bit mono PCM with hard clipping and prefix the
 * 44-byte canonical RIFF/WAVE header (format code 1, linear PCM).
 */
module Wav {

  import opened Bytes

  const SampleRate: int := 6000
  const Channels: int := 1
  const BitDepth: int := 16
  /** The amplification factor 15.0 is an exact integer, so the product of a sample and it is too. */
  const Gain: int := 15
  const HeaderSize: int := 44
  /** `byteRate` and `blockAlign` of `convertPCMToWAV`, fixed by the format constants. */
  const ByteRate: int := SampleRate * Channels * (BitDepth / 8)
  const BlockAlign: int := Channels * (BitDepth / 8)
  /** The largest data size whose RIFF chunk size `36 + dataSize` still fits `writeUInt32LE`. */
  const MaxDataSize: int := TwoTo32 - 1 - 36

  /**
   * The inputs `convertPCMToWAV` encodes without throwing: whole samples
   * (`readInt16LE` fails on a trailing half sample) and a data size whose RIFF
   * chunk size fits `writeUInt32LE`.
   */
  predicate Encodable(pcm: seq<byte>)
  {
    |pcm| % 2 == 0 && |pcm| <= MaxDataSize
  }

  /** `Math.max(-32768, Math.min(32767, x))`. */
  function Clamp(x: int): (r: int)
    ensures -0x8000 <= r < 0x8000
    ensures -0x8000 <= x < 0x8000 ==> r == x
    ensures x < -0x8000 ==> r == -0x8000
    ensures x >= 0x8000 ==> r == 0x7FFF
  {
    if x > 0x7FFF then 0x7FFF else if x < -0x8000 then -0x8000 else x
  }

  /** One amplified, hard-clipped sample. */
  function AmplifySample(s: int): (r: int)
    ensures -0x8000 <= r < 0x8000
  {
    Clamp(s * Gain)
  }

  /** The amplified buffer: byte k belongs to the sample that starts at the even offset k - k % 2. */
  function Amplified(pcm: seq<byte>): (r: seq<byte>)
    requires |pcm| % 2 == 0
    ensures |r| == |pcm|
  {
    seq(|pcm|, k requires 0 <= k < |pcm| => I16LE(AmplifySample(ReadI16LE(pcm, k - k % 2)))[k % 2])
  }

  /** The RIFF chunk descriptor: tag, chunk size `36 + dataSize`, format `WAVE`. */
  function RiffDescriptor(dataSize: nat): (r: seq<byte>)
    requires dataSize <= MaxDataSize
    ensures |r| == 12
  {
    Ascii("RIFF") + U32LE(36 + dataSize) + Ascii("WAVE")
  }

  /** The first half of the `fmt ` sub-chunk: tag, sub-chunk size 16, format code 1 (PCM), channel count. */
  function FmtPreamble(): (r: seq<byte>)
    ensures |r| == 12
  {
    Ascii("fmt ") + U32LE(16) + U16LE(1) + U16LE(Channels)
  }

  /** The second half of the `fmt ` sub-chunk: sample rate, byte rate, block align, bits per sample. */
  function FmtRates(): (r: seq<byte>)
    ensures |r| == 12
  {
    U32LE(SampleRate) + U32LE(ByteRate) + U16LE(BlockAlign) + U16LE(BitDepth)
  }

  /** The `data` sub-chunk header: tag and data size. */
  function DataPreamble(dataSize: nat): (r: seq<byte>)
    requires dataSize <= MaxDataSize
    ensures |r| == 8
  {
    Ascii("data") + U32LE(dataSize)
  }

  /** The 44-byte canonical header for a data chunk of `dataSize` bytes. */
  function Header(dataSize: nat): (h: seq<byte>)
    requires dataSize <= MaxDataSize
    ensures |h| == HeaderSize
  {
    RiffDescriptor(dataSize) + FmtPreamble() + FmtRates() + DataPreamble(dataSize)
  }

  /** The assembled `wavBuffer`. */
  function WavFile(pcm: seq<byte>): (w: seq<byte>)
    requires Encodable(pcm)
    ensures |w| == HeaderSize + |pcm|
  {
    Header(|pcm|) + Amplified(pcm)
  }

  lemma RiffDescriptorLayout(dataSize: nat)
    requires dataSize <= MaxDataSize
    ensures var r := RiffDescriptor(dataSize);
      r[0..4] == Ascii("RIFF") && ReadU32LE(r, 4) == 36 + dataSize && r[8..12] == Ascii("WAVE")
  {
    var r := RiffDescriptor(dataSize);
    ReadU32At(r, 4, 36 + dataSize);
  }

  lemma FmtPreambleLayout()
    ensures var r := FmtPreamble();
      r[0..4] == Ascii("fmt ") && ReadU32LE(r, 4) == 16 && ReadU16LE(r, 8) == 1 && ReadU16LE(r, 10) == 1
  {
    var r := FmtPreamble();
    ReadU32At(r, 4, 16);
    ReadU16At(r, 8, 1);
    ReadU16At(r, 10, 1);
  }

  lemma FmtRatesLayout()
    ensures var r := FmtRates();
      ReadU32LE(r, 0) == 6000 && ReadU32LE(r, 4) == 12000 && ReadU16LE(r, 8) == 2 && ReadU16LE(r, 10) == 16
  {
    var r := FmtRates();
    ReadU32At(r, 0, 6000);
    ReadU32At(r, 4, 12000);
    ReadU16At(r, 8, 2);
    ReadU16At(r, 10, 16);
  }

  lemma DataPreambleLayout(dataSize: nat)
    requires dataSize <= MaxDataSize
    ensures var r := DataPreamble(dataSize);
      r[0..4] == Ascii("data") && ReadU32LE(r, 4) == dataSize
  {
    var r := DataPreamble(dataSize);
    ReadU32At(r, 4, dataSize);
  }

  lemma HeaderRiffFields(dataSize: nat)
    requires dataSize <= MaxDataSize
    ensures var h := Header(dataSize);
      h[0..4] == Ascii("RIFF") && ReadU32LE(h, 4) == 36 + dataSize && h[8..12] == Ascii("WAVE")
  {
    var h, riff := Header(dataSize), RiffDescriptor(dataSize);
    RiffDescriptorLayout(dataSize);
    ReadsThrough(h, 0, riff);
  }

  lemma HeaderFmtFields(dataSize: nat)
    requires dataSize <= MaxDataSize
    ensures var h := Header(dataSize);
      && h[12..16] == Ascii("fmt ") && ReadU32LE(h, 16) == 16
      && ReadU16LE(h, 20) == 1 && ReadU16LE(h, 22) == 1
  {
    var h, fmt1 := Header(dataSize), FmtPreamble();
    FmtPreambleLayout();
    ReadsThrough(h, 12, fmt1);
  }

  lemma HeaderRateFields(dataSize: nat)
    requires dataSize <= MaxDataSize
    ensures var h := Header(dataSize);
      && ReadU32LE(h, 24) == 6000 && ReadU32LE(h, 28) == 12000
      && ReadU16LE(h, 32) == 2 && ReadU16LE(h, 34) == 16
  {
    var h, fmt2 := Header(dataSize), FmtRates();
    FmtRatesLayout();
    ReadsThrough(h, 24, fmt2);
  }

  lemma HeaderDataFields(dataSize: nat)
    requires dataSize <= MaxDataSize
    ensures var h := Header(dataSize);
      h[36..40] == Ascii("data") && ReadU32LE(h, 40) == dataSize
  {
    var h, data := Header(dataSize), DataPreamble(dataSize);
    DataPreambleLayout(dataSize);
    ReadsThrough(h, 36, data);
  }

  /**
   * Byte-exact header layout: the four tags, and every numeric field read back
   * little-endian from its offset.
   */
  lemma HeaderLayout(dataSize: nat)
    requires dataSize <= MaxDataSize
    ensures var h := Header(dataSize);
      && h[0..4] == Ascii("RIFF") && h[8..12] == Ascii("WAVE")
      && h[12..16] == Ascii("fmt ") && h[36..40] == Ascii("data")
      && ReadU32LE(h, 4) == 36 + dataSize
      && ReadU32LE(h, 16) == 16
      && ReadU16LE(h, 20) == 1
      && ReadU16LE(h, 22) == 1
      && ReadU32LE(h, 24) == 6000
      && ReadU32LE(h, 28) == 12000
      && ReadU16LE(h, 32) == 2
      && ReadU16LE(h, 34) == 16
      && ReadU32LE(h, 40) == dataSize
  {
    HeaderRiffFields(dataSize);
    HeaderFmtFields(dataSize);
    HeaderRateFields(dataSize);
    HeaderDataFields(dataSize);
  }

  /** Reading the amplified buffer at an even offset gives the amplified input sample there. */
  lemma AmplifiedSample(pcm: seq<byte>, i: nat)
    requires |pcm| % 2 == 0 && i % 2 == 0 && i + 2 <= |pcm|
    ensures ReadI16LE(Amplified(pcm), i) == Clamp(ReadI16LE(pcm, i) * 15)
  {
    AmplifiedPair(pcm, i);
    ReadI16At(Amplified(pcm), i, AmplifySample(ReadI16LE(pcm, i)));
  }

  /**
   * The whole file: 44 header bytes followed by one amplified, clipped sample
   * for every input sample, at the same offset shifted by 44.
   */
  lemma WavLayout(pcm: seq<byte>)
    requires Encodable(pcm)
    ensures |WavFile(pcm)| == 44 + |pcm|
    ensures WavFile(pcm)[..44] == Header(|pcm|)
    ensures forall i | 0 <= i < |pcm| && i % 2 == 0 ::
      ReadI16LE(WavFile(pcm), 44 + i) == Clamp(ReadI16LE(pcm, i) * 15)
  {
    var w := WavFile(pcm);
    assert w[44..44 + |pcm|] == Amplified(pcm);
    ReadsThrough(w, 44, Amplified(pcm));
    forall i | 0 <= i < |pcm| && i % 2 == 0
      ensures ReadI16LE(w, 44 + i) == Clamp(ReadI16LE(pcm, i) * 15)
    {
      AmplifiedSample(pcm, i);
    }
  }

  /** Silence stays silence, small samples scale by 15, loud ones clip at the int16 bounds. */
  lemma AmplifyExamples()
    ensures AmplifySample(0) == 0
    ensures AmplifySample(1) == 15
    ensures AmplifySample(2) == 30
    ensures AmplifySample(-1) == -15
    ensures AmplifySample(3000) == 32767
    ensures AmplifySample(-3000) == -32768
    ensures AmplifySample(2184) == 32760
    ensures AmplifySample(2185) == 32767
  {
  }

  /** Two samples 1 and 2 become 15 and 30; the header says 4 data bytes and a RIFF size of 40. */
  lemma EncodeExample()
    ensures var w := WavFile([1, 0, 2, 0]);
      |w| == 48 && w[44..] == [15, 0, 30, 0] && ReadU32LE(w, 40) == 4 && ReadU32LE(w, 4) == 40
  {
    var pcm: seq<byte> := [1, 0, 2, 0];
    var w := WavFile(pcm);
    var amp := Amplified(pcm);
    assert ReadI16LE(pcm, 0) == 1 && ReadI16LE(pcm, 2) == 2;
    AmplifiedPair(pcm, 0);
    AmplifiedPair(pcm, 2);
    assert amp[0..2] == I16LE(15) == [15, 0];
    assert amp[2..4] == I16LE(30) == [30, 0];
    assert amp == amp[0..2] + amp[2..4];
    assert w[44..] == amp;
    HeaderRiffFields(4);
    HeaderDataFields(4);
    ReadsThrough(w, 0, Header(4));
  }

  /** A write at `offset` right after a correct prefix extends that prefix by the written bytes. */
  lemma WriteExtendsPrefix(before: seq<byte>, after: seq<byte>, prefix: seq<byte>, bytes: seq<byte>, offset: nat)
    requires offset == |prefix| && offset + |bytes| <= |before|
    requires after == before[..offset] + bytes + before[offset + |bytes|..]
    requires before[..offset] == prefix
    ensures after[..offset + |bytes|] == prefix + bytes
  {
    assert after[..offset + |bytes|] == before[..offset] + bytes;
  }

  /** A write that ends at or before `keep` leaves every byte from `keep` on as it was. */
  lemma WriteKeepsSuffix(before: seq<byte>, after: seq<byte>, bytes: seq<byte>, offset: nat, keep: nat)
    requires offset + |bytes| <= keep <= |before|
    requires after == before[..offset] + bytes + before[offset + |bytes|..]
    ensures after[keep..] == before[keep..]
  {
    assert after[keep..] == before[offset + |bytes|..][keep - offset - |bytes|..];
  }

  /** A write right after a correct prefix extends it and leaves the bytes from `keep` on as they were. */
  lemma WriteStep(before: seq<byte>, after: seq<byte>, prefix: seq<byte>, bytes: seq<byte>, offset: nat, keep: nat)
    requires offset == |prefix| && offset + |bytes| <= keep <= |before|
    requires after == before[..offset] + bytes + before[offset + |bytes|..]
    requires before[..offset] == prefix
    ensures after[..offset + |bytes|] == prefix + bytes
    ensures after[keep..] == before[keep..]
  {
    WriteExtendsPrefix(before, after, prefix, bytes, offset);
    WriteKeepsSuffix(before, after, bytes, offset, keep);
  }

  /** The two bytes of `Amplified(pcm)` at an even offset encode the amplified sample there. */
  lemma AmplifiedPair(pcm: seq<byte>, i: nat)
    requires |pcm| % 2 == 0 && i % 2 == 0 && i + 2 <= |pcm|
    ensures Amplified(pcm)[i..i + 2] == I16LE(AmplifySample(ReadI16LE(pcm, i)))
  {
    assert (i + 1) - (i + 1) % 2 == i;
  }

  /** One more sample of `Amplified(pcm)`: the prefix grows by that sample's two bytes. */
  lemma AmplifiedPrefix(pcm: seq<byte>, i: nat)
    requires |pcm| % 2 == 0 && i % 2 == 0 && i + 2 <= |pcm|
    ensures Amplified(pcm)[..i + 2] == Amplified(pcm)[..i] + I16LE(AmplifySample(ReadI16LE(pcm, i)))
  {
    AmplifiedPair(pcm, i);
    assert Amplified(pcm)[..i + 2] == Amplified(pcm)[..i] + Amplified(pcm)[i..i + 2];
  }

  /** The amplify loop of `convertPCMToWAV`: a fresh buffer filled sample by sample. */
  method AmplifyInto(pcm: seq<byte>) returns (amplified: array<byte>)
    requires |pcm| % 2 == 0
    ensures fresh(amplified)
    ensures amplified[..] == Amplified(pcm)
  {
    amplified := new byte[|pcm|](_ => 0);
    var i := 0;
    while i < |pcm|
      invariant amplified.Length == |pcm|
      invariant 0 <= i <= |pcm| && i % 2 == 0
      invariant amplified[..i] == Amplified(pcm)[..i]
    {
      var sample := ReadI16LE(pcm, i);
      sample := Clamp(sample * Gain);
      ghost var before := amplified[..];
      WriteInt16LE(amplified, sample, i);
      WriteExtendsPrefix(before, amplified[..], Amplified(pcm)[..i], I16LE(sample), i);
      AmplifiedPrefix(pcm, i);
      i := i + 2;
    }
    assert amplified[..] == amplified[..i];
  }

  /** Writes the RIFF chunk descriptor: tag, chunk size, format, at offsets 0 to 11 of the header buffer. */
  method WriteRiffDescriptor(header: array<byte>, dataSize: int)
    requires header.Length == HeaderSize
    requires 0 <= dataSize <= MaxDataSize
    modifies header
    ensures header[..12] == RiffDescriptor(dataSize)
    ensures header[12..] == old(header[12..])
  {
    ghost var written: seq<byte> := [];
    ghost var before := header[..];
    WriteAscii(header, "RIFF", 0);
    WriteStep(before, header[..], written, Ascii("RIFF"), 0, 12);
    written := written + Ascii("RIFF");
    before := header[..];
    WriteUInt32LE(header, 36 + dataSize, 4);
    WriteStep(before, header[..], written, U32LE(36 + dataSize), 4, 12);
    written := written + U32LE(36 + dataSize);
    before := header[..];
    WriteAscii(header, "WAVE", 8);
    WriteStep(before, header[..], written, Ascii("WAVE"), 8, 12);
    written := written + Ascii("WAVE");
    assert written == RiffDescriptor(dataSize);
  }

  /** Writes the start of the `fmt ` sub-chunk: tag, sub-chunk size, format code, channels, at offsets 12 to 23 of the header buffer. */
  method WriteFmtPreamble(header: array<byte>)
    requires header.Length == HeaderSize
    modifies header
    ensures header[..24] == old(header[..12]) + FmtPreamble()
    ensures header[24..] == old(header[24..])
  {
    ghost var written := header[..12];
    ghost var before := header[..];
    WriteAscii(header, "fmt ", 12);
    WriteStep(before, header[..], written, Ascii("fmt "), 12, 24);
    written := written + Ascii("fmt ");
    before := header[..];
    WriteUInt32LE(header, 16, 16);
    WriteStep(before, header[..], written, U32LE(16), 16, 24);
    written := written + U32LE(16);
    before := header[..];
    WriteUInt16LE(header, 1, 20);
    WriteStep(before, header[..], written, U16LE(1), 20, 24);
    written := written + U16LE(1);
    before := header[..];
    WriteUInt16LE(header, Channels, 22);
    WriteStep(before, header[..], written, U16LE(Channels), 22, 24);
    written := written + U16LE(Channels);
    assert written == old(header[..12]) + FmtPreamble();
  }

  /** Writes the rest of the `fmt ` sub-chunk: sample rate, byte rate, block align, bit depth, at offsets 24 to 35 of the header buffer. */
  method WriteFmtRates(header: array<byte>)
    requires header.Length == HeaderSize
    modifies header
    ensures header[..36] == old(header[..24]) + FmtRates()
    ensures header[36..] == old(header[36..])
  {
    ghost var written := header[..24];
    ghost var before := header[..];
    WriteUInt32LE(header, SampleRate, 24);
    WriteStep(before, header[..], written, U32LE(SampleRate), 24, 36);
    written := written + U32LE(SampleRate);
    before := header[..];
    WriteUInt32LE(header, ByteRate, 28);
    WriteStep(before, header[..], written, U32LE(ByteRate), 28, 36);
    written := written + U32LE(ByteRate);
    before := header[..];
    WriteUInt16LE(header, BlockAlign, 32);
    WriteStep(before, header[..], written, U16LE(BlockAlign), 32, 36);
    written := written + U16LE(BlockAlign);
    before := header[..];
    WriteUInt16LE(header, BitDepth, 34);
    WriteStep(before, header[..], written, U16LE(BitDepth), 34, 36);
    written := written + U16LE(BitDepth);
    assert written == old(header[..24]) + FmtRates();
  }

  /** Writes the `data` sub-chunk header: tag and data size, at offsets 36 to 43 of the header buffer. */
  method WriteDataPreamble(header: array<byte>, dataSize: int)
    requires header.Length == HeaderSize
    requires 0 <= dataSize <= MaxDataSize
    modifies header
    ensures header[..] == old(header[..36]) + DataPreamble(dataSize)
  {
    ghost var written := header[..36];
    ghost var before := header[..];
    WriteAscii(header, "data", 36);
    WriteExtendsPrefix(before, header[..], written, Ascii("data"), 36);
    written := written + Ascii("data");
    before := header[..];
    WriteUInt32LE(header, dataSize, 40);
    WriteExtendsPrefix(before, header[..], written, U32LE(dataSize), 40);
    written := written + U32LE(dataSize);
    assert written == old(header[..36]) + DataPreamble(dataSize);
    assert header[..] == header[..44];
  }

  /**
   * The encoder up to the assembled buffer: the amplified samples, then the
   * header written field by field into a fresh zero-filled buffer.
   */
  method ConvertPcmToWav(pcm: seq<byte>) returns (wav: seq<byte>)
    requires Encodable(pcm)
    ensures wav == WavFile(pcm)
  {
    var amplified := AmplifyInto(pcm);

    var dataSize := amplified.Length;
    var header := new byte[44](_ => 0);
    WriteRiffDescriptor(header, dataSize);
    WriteFmtPreamble(header);
    WriteFmtRates(header);
    WriteDataPreamble(header, dataSize);
    assert header[..] == Header(dataSize);
    wav := header[..] + amplified[..];
  }
}
