/** The silent placeholder audio the server sends when no speech service answers
    (server/server.js, `buildSilentWav`): a canonical 44-byte RIFF/WAVE header
    for 16-bit mono PCM followed by an all-zero data chunk. */
module SilentWav {
  import opened Bytes

  const DefaultSampleRate: nat := 22050
  const HeaderSize: nat := 44

  /** `Math.max(1, Math.floor(durationSeconds * sampleRate))` */
  function NumSamples(durationSeconds: real, sampleRate: nat): (n: nat)
    ensures n >= 1
    ensures n >= 2 ==> (n as real) <= durationSeconds * sampleRate as real < (n + 1) as real
    ensures n == 1 ==> durationSeconds * sampleRate as real < 2.0
  {
    var f := (durationSeconds * sampleRate as real).Floor;
    if f < 1 then 1 else f
  }

  /** Both 32-bit fields that depend on the arguments fit in 32 bits; otherwise
      `writeUInt32LE` throws a RangeError. */
  predicate FitsHeader(durationSeconds: real, sampleRate: nat) {
    sampleRate * 2 < TwoTo32 && 36 + 2 * NumSamples(durationSeconds, sampleRate) < TwoTo32
  }

  /** The RIFF descriptor: tag, chunk size `36 + dataSize`, format tag. */
  function RiffDescriptor(dataSize: nat): (r: seq<byte>)
    requires 36 + dataSize < TwoTo32
    ensures |r| == 12
  {
    Ascii("RIFF") + EncodeU32LE(36 + dataSize) + Ascii("WAVE")
  }

  /** The first half of the `fmt ` chunk: tag, chunk size 16, PCM format 1,
      one channel. */
  function FmtFormat(): (r: seq<byte>)
    ensures |r| == 12
  {
    Ascii("fmt ") + EncodeU32LE(16) + EncodeU16LE(1) + EncodeU16LE(1)
  }

  /** The second half of the `fmt ` chunk: the sample rate, byte rate
      `2 * sampleRate`, block align 2, 16 bits per sample. */
  function FmtRates(sampleRate: nat): (r: seq<byte>)
    requires sampleRate * 2 < TwoTo32
    ensures |r| == 12
  {
    EncodeU32LE(sampleRate) + EncodeU32LE(sampleRate * 2) + EncodeU16LE(2) + EncodeU16LE(16)
  }

  /** The header of the `data` chunk: tag and size. */
  function DataChunkHeader(dataSize: nat): (r: seq<byte>)
    requires dataSize < TwoTo32
    ensures |r| == 8
  {
    Ascii("data") + EncodeU32LE(dataSize)
  }

  /** The 44 header bytes, in the order the source writes them: the RIFF
      descriptor, the `fmt ` chunk, then the `data` chunk header. */
  function WavHeader(numSamples: nat, sampleRate: nat): (r: seq<byte>)
    requires sampleRate * 2 < TwoTo32 && 36 + 2 * numSamples < TwoTo32
    ensures |r| == HeaderSize
    ensures r[0..4] == Ascii("RIFF") && r[8..12] == Ascii("WAVE")
    ensures r[12..16] == Ascii("fmt ") && r[36..40] == Ascii("data")
  {
    var dataSize := numSamples * 2;
    RiffDescriptor(dataSize) + FmtFormat() + FmtRates(sampleRate) + DataChunkHeader(dataSize)
  }

  function Zeros(n: nat): (r: seq<byte>)
    ensures |r| == n && forall i :: 0 <= i < n ==> r[i] == 0
  {
    seq(n, _ => 0)
  }

  /** The whole file `buildSilentWav(durationSeconds, sampleRate)` returns:
      the header, then two zero bytes per sample. */
  function SilentWav(durationSeconds: real, sampleRate: nat): (r: seq<byte>)
    requires FitsHeader(durationSeconds, sampleRate)
    ensures |r| == HeaderSize + 2 * NumSamples(durationSeconds, sampleRate)
    ensures forall i :: HeaderSize <= i < |r| ==> r[i] == 0
  {
    var n := NumSamples(durationSeconds, sampleRate);
    WavHeader(n, sampleRate) + Zeros(2 * n)
  }

  /** The layout a WAVE reader relies on: tags at offsets 0, 8, 12 and 36, the
      RIFF chunk size at 4, the `fmt ` fields (PCM format 1, one channel, the
      sample rate, byte rate 2 * rate, block align 2, 16 bits per sample), the
      data size at 40, and nothing but zero samples after the header. */
  lemma {:induction false} SilentWavLayout(durationSeconds: real, sampleRate: nat)
    requires FitsHeader(durationSeconds, sampleRate)
    ensures var w, n := SilentWav(durationSeconds, sampleRate), NumSamples(durationSeconds, sampleRate);
      && n >= 1
      && |w| == HeaderSize + 2 * n
      && w[0..4] == Ascii("RIFF")
      && ReadU32LE(w, 4) == 36 + 2 * n
      && w[8..12] == Ascii("WAVE")
      && w[12..16] == Ascii("fmt ")
      && ReadU32LE(w, 16) == 16
      && ReadU16LE(w, 20) == 1
      && ReadU16LE(w, 22) == 1
      && ReadU32LE(w, 24) == sampleRate
      && ReadU32LE(w, 28) == 2 * sampleRate
      && ReadU16LE(w, 32) == 2
      && ReadU16LE(w, 34) == 16
      && w[36..40] == Ascii("data")
      && ReadU32LE(w, 40) == 2 * n
      && forall i :: HeaderSize <= i < |w| ==> w[i] == 0
  {
    var w, n := SilentWav(durationSeconds, sampleRate), NumSamples(durationSeconds, sampleRate);
    var h := WavHeader(n, sampleRate);
    assert w[0..HeaderSize] == h;
    HeaderFields(n, sampleRate);
    FieldInChunk(w, 0, h, 4);
    FieldInChunk(w, 0, h, 16);
    FieldInChunk(w, 0, h, 20);
    FieldInChunk(w, 0, h, 22);
    FieldInChunk(w, 0, h, 24);
    FieldInChunk(w, 0, h, 28);
    FieldInChunk(w, 0, h, 32);
    FieldInChunk(w, 0, h, 34);
    FieldInChunk(w, 0, h, 40);
    assert w[0..4] == h[0..4] && w[8..12] == h[8..12] && w[12..16] == h[12..16] && w[36..40] == h[36..40];
  }

  /** The numeric fields of the header, at their offsets in the header. */
  lemma HeaderFields(numSamples: nat, sampleRate: nat)
    requires sampleRate * 2 < TwoTo32 && 36 + 2 * numSamples < TwoTo32
    ensures var h := WavHeader(numSamples, sampleRate);
      && ReadU32LE(h, 4) == 36 + 2 * numSamples
      && ReadU32LE(h, 16) == 16 && ReadU16LE(h, 20) == 1 && ReadU16LE(h, 22) == 1
      && ReadU32LE(h, 24) == sampleRate && ReadU32LE(h, 28) == 2 * sampleRate
      && ReadU16LE(h, 32) == 2 && ReadU16LE(h, 34) == 16
      && ReadU32LE(h, 40) == 2 * numSamples
  {
    var dataSize := numSamples * 2;
    var h := WavHeader(numSamples, sampleRate);
    var riff, format, rates, data := RiffDescriptor(dataSize), FmtFormat(), FmtRates(sampleRate), DataChunkHeader(dataSize);
    assert h == riff + format + rates + data;
    assert h[0..12] == riff && h[12..24] == format && h[24..36] == rates && h[36..44] == data;
    RiffFields(dataSize);
    FormatFields();
    RatesFields(sampleRate);
    DataFields(dataSize);
    FieldInChunk(h, 0, riff, 4);
    FieldInChunk(h, 12, format, 4);
    FieldInChunk(h, 12, format, 8);
    FieldInChunk(h, 12, format, 10);
    FieldInChunk(h, 24, rates, 0);
    FieldInChunk(h, 24, rates, 4);
    FieldInChunk(h, 24, rates, 8);
    FieldInChunk(h, 24, rates, 10);
    FieldInChunk(h, 36, data, 4);
  }

  lemma RiffFields(dataSize: nat)
    requires 36 + dataSize < TwoTo32
    ensures ReadU32LE(RiffDescriptor(dataSize), 4) == 36 + dataSize
  {
    var riff := RiffDescriptor(dataSize);
    assert riff[4..8] == EncodeU32LE(36 + dataSize);
    U32At(riff, 4, 36 + dataSize);
  }

  lemma FormatFields()
    ensures ReadU32LE(FmtFormat(), 4) == 16 && ReadU16LE(FmtFormat(), 8) == 1 && ReadU16LE(FmtFormat(), 10) == 1
  {
    var format := FmtFormat();
    assert format[4..8] == EncodeU32LE(16) && format[8..10] == EncodeU16LE(1) && format[10..12] == EncodeU16LE(1);
    U32At(format, 4, 16);
    U16At(format, 8, 1);
    U16At(format, 10, 1);
  }

  lemma RatesFields(sampleRate: nat)
    requires sampleRate * 2 < TwoTo32
    ensures ReadU32LE(FmtRates(sampleRate), 0) == sampleRate && ReadU32LE(FmtRates(sampleRate), 4) == sampleRate * 2
    ensures ReadU16LE(FmtRates(sampleRate), 8) == 2 && ReadU16LE(FmtRates(sampleRate), 10) == 16
  {
    var rates := FmtRates(sampleRate);
    assert rates[0..4] == EncodeU32LE(sampleRate) && rates[4..8] == EncodeU32LE(sampleRate * 2);
    assert rates[8..10] == EncodeU16LE(2) && rates[10..12] == EncodeU16LE(16);
    U32At(rates, 0, sampleRate);
    U32At(rates, 4, sampleRate * 2);
    U16At(rates, 8, 2);
    U16At(rates, 10, 16);
  }

  lemma DataFields(dataSize: nat)
    requires dataSize < TwoTo32
    ensures ReadU32LE(DataChunkHeader(dataSize), 4) == dataSize
  {
    var data := DataChunkHeader(dataSize);
    assert data[4..8] == EncodeU32LE(dataSize);
    U32At(data, 4, dataSize);
  }

  /** A field read inside a chunk reads the same inside a buffer that holds the
      chunk at `start`. */
  lemma FieldInChunk(w: seq<byte>, start: nat, chunk: seq<byte>, offset: nat)
    requires start + |chunk| <= |w| && w[start..start + |chunk|] == chunk
    requires offset + 2 <= |chunk|
    ensures ReadU16LE(w, start + offset) == ReadU16LE(chunk, offset)
    ensures offset + 4 <= |chunk| ==> ReadU32LE(w, start + offset) == ReadU32LE(chunk, offset)
  {
    assert w[start + offset] == chunk[offset] && w[start + offset + 1] == chunk[offset + 1];
    if offset + 4 <= |chunk| {
      assert w[start + offset + 2] == chunk[offset + 2] && w[start + offset + 3] == chunk[offset + 3];
    }
  }

  lemma U32At(w: seq<byte>, offset: nat, v: nat)
    requires v < TwoTo32 && offset + 4 <= |w|
    requires w[offset..offset + 4] == EncodeU32LE(v)
    ensures ReadU32LE(w, offset) == v
  {
    U32RoundTrip(v);
    assert w[offset] == EncodeU32LE(v)[0] && w[offset + 1] == EncodeU32LE(v)[1];
    assert w[offset + 2] == EncodeU32LE(v)[2] && w[offset + 3] == EncodeU32LE(v)[3];
  }

  lemma U16At(w: seq<byte>, offset: nat, v: nat)
    requires v < TwoTo16 && offset + 2 <= |w|
    requires w[offset..offset + 2] == EncodeU16LE(v)
    ensures ReadU16LE(w, offset) == v
  {
    U16RoundTrip(v);
    assert w[offset] == EncodeU16LE(v)[0] && w[offset + 1] == EncodeU16LE(v)[1];
  }

  /** The state of the buffer while the header is written: the bytes written
      so far, then the zeros `Buffer.alloc` filled it with. */
  ghost predicate WrittenThenZeros(buf: array<byte>, written: seq<byte>)
    reads buf
  {
    |written| <= buf.Length
    && buf[..|written|] == written
    && forall i :: |written| <= i < buf.Length ==> buf[i] == 0
  }

  /** Stores `b` at `offset`, the way each `buffer.write*` call does. */
  method WriteBytes(buf: array<byte>, offset: nat, b: seq<byte>, ghost written: seq<byte>)
    requires offset == |written| && offset + |b| <= buf.Length
    requires WrittenThenZeros(buf, written)
    modifies buf
    ensures WrittenThenZeros(buf, written + b)
  {
    forall i | 0 <= i < |b| {
      buf[offset + i] := b[i];
    }
    assert buf[..offset + |b|] == written + b;
  }

  method WriteRiffDescriptor(buf: array<byte>, offset: nat, dataSize: nat) returns (next: nat)
    requires offset == 0 && 36 + dataSize < TwoTo32 && 12 <= buf.Length
    requires WrittenThenZeros(buf, [])
    modifies buf
    ensures next == 12 && WrittenThenZeros(buf, RiffDescriptor(dataSize))
  {
    ghost var w: seq<byte> := [];
    WriteBytes(buf, offset, Ascii("RIFF"), w);
    assert w + Ascii("RIFF") == Ascii("RIFF");
    w, next := Ascii("RIFF"), offset + 4;
    WriteBytes(buf, next, EncodeU32LE(36 + dataSize), w);
    w, next := w + EncodeU32LE(36 + dataSize), next + 4;
    WriteBytes(buf, next, Ascii("WAVE"), w);
    next := next + 4;
  }

  method WriteFmtFormat(buf: array<byte>, offset: nat, ghost w: seq<byte>) returns (next: nat)
    requires offset == |w| && offset + 12 <= buf.Length
    requires WrittenThenZeros(buf, w)
    modifies buf
    ensures next == offset + 12 && WrittenThenZeros(buf, w + FmtFormat())
  {
    WriteBytes(buf, offset, Ascii("fmt "), w);
    ghost var v := w + Ascii("fmt ");
    WriteBytes(buf, offset + 4, EncodeU32LE(16), v);
    v := v + EncodeU32LE(16);
    WriteBytes(buf, offset + 8, EncodeU16LE(1), v);
    v := v + EncodeU16LE(1);
    WriteBytes(buf, offset + 10, EncodeU16LE(1), v);
    assert v + EncodeU16LE(1) == w + FmtFormat();
    next := offset + 12;
  }

  method WriteFmtRates(buf: array<byte>, offset: nat, sampleRate: nat, ghost w: seq<byte>) returns (next: nat)
    requires offset == |w| && offset + 12 <= buf.Length && sampleRate * 2 < TwoTo32
    requires WrittenThenZeros(buf, w)
    modifies buf
    ensures next == offset + 12 && WrittenThenZeros(buf, w + FmtRates(sampleRate))
  {
    WriteBytes(buf, offset, EncodeU32LE(sampleRate), w);
    ghost var v := w + EncodeU32LE(sampleRate);
    WriteBytes(buf, offset + 4, EncodeU32LE(sampleRate * 2), v);
    v := v + EncodeU32LE(sampleRate * 2);
    WriteBytes(buf, offset + 8, EncodeU16LE(2), v);
    v := v + EncodeU16LE(2);
    WriteBytes(buf, offset + 10, EncodeU16LE(16), v);
    assert v + EncodeU16LE(16) == w + FmtRates(sampleRate);
    next := offset + 12;
  }

  method WriteDataChunkHeader(buf: array<byte>, offset: nat, dataSize: nat, ghost w: seq<byte>)
    requires offset == |w| && offset + 8 <= buf.Length && dataSize < TwoTo32
    requires WrittenThenZeros(buf, w)
    modifies buf
    ensures WrittenThenZeros(buf, w + DataChunkHeader(dataSize))
  {
    WriteBytes(buf, offset, Ascii("data"), w);
    WriteBytes(buf, offset + 4, EncodeU32LE(dataSize), w + Ascii("data"));
    assert w + Ascii("data") + EncodeU32LE(dataSize) == w + DataChunkHeader(dataSize);
  }

  /** `buildSilentWav(durationSeconds, sampleRate)`: allocates a zero-filled
      buffer and writes the header into it while advancing `offset`. */
  method BuildSilentWav(durationSeconds: real, sampleRate: nat) returns (buf: array<byte>)
    requires FitsHeader(durationSeconds, sampleRate)
    ensures buf[..] == SilentWav(durationSeconds, sampleRate)
  {
    var numSamples := NumSamples(durationSeconds, sampleRate);
    var dataSize := numSamples * 2;
    buf := new byte[HeaderSize + dataSize](_ => 0);
    var offset := 0;
    offset := WriteRiffDescriptor(buf, offset, dataSize);
    offset := WriteFmtFormat(buf, offset, RiffDescriptor(dataSize));
    offset := WriteFmtRates(buf, offset, sampleRate, RiffDescriptor(dataSize) + FmtFormat());
    WriteDataChunkHeader(buf, offset, dataSize, RiffDescriptor(dataSize) + FmtFormat() + FmtRates(sampleRate));
    ghost var header := WavHeader(numSamples, sampleRate);
    assert buf[..HeaderSize] == header;
    assert buf[HeaderSize..] == Zeros(dataSize);
    assert buf[..] == buf[..HeaderSize] + buf[HeaderSize..];
  }
}
