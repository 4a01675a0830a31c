/** `createWavBlob` and the download file name of
    app/ui/spectrogram/controls/DownloadResult.tsx: a mono, 16-bit PCM file in
    the RIFF WAVE format (Microsoft/IBM "Multimedia Programming Interface and
    Data Specifications 1.0"): a 44-byte header of the `RIFF`, `fmt ` and
    `data` chunks, then one little-endian 16-bit sample per input sample.
    The `DataView` setters are modelled on a byte array. */
module WavEncoder {
  import Text

  newtype uint8 = x: int | 0 <= x < 256

  const HeaderSize: nat := 44
  const MaxFileNameWords: nat := 5

  // ---------------------------------------------------------------------------
  // Number conversions of the DataView setters
  // ---------------------------------------------------------------------------

  /** Truncation toward zero, as in ECMAScript `ToIntegerOrInfinity`. */
  function Trunc(x: real): (r: int)
    ensures x >= 0.0 ==> 0 <= r && r as real <= x < r as real + 1.0
    ensures x < 0.0 ==> r <= 0 && r as real - 1.0 < x <= r as real
  {
    if x >= 0.0 then x.Floor else -((-x).Floor)
  }

  /** The two little-endian bytes of `v` modulo 2^16 (two's complement for negatives). */
  function LE16(v: int): (r: seq<uint8>)
    ensures |r| == 2
  {
    [(v % 256) as uint8, ((v / 256) % 256) as uint8]
  }

  /** The four little-endian bytes of `v` modulo 2^32. */
  function LE32(v: int): (r: seq<uint8>)
    ensures |r| == 4
  {
    [(v % 256) as uint8, ((v / 256) % 256) as uint8,
     ((v / 0x1_0000) % 256) as uint8, ((v / 0x100_0000) % 256) as uint8]
  }

  /** Reading two bytes back as an unsigned little-endian number. */
  function ReadUint16(b: seq<uint8>, offset: nat): nat
    requires offset + 2 <= |b|
  {
    b[offset] as nat + 256 * b[offset + 1] as nat
  }

  /** Reading two bytes back as a signed (two's complement) little-endian number. */
  function ReadInt16(b: seq<uint8>, offset: nat): int
    requires offset + 2 <= |b|
  {
    var u := ReadUint16(b, offset);
    if u < 0x8000 then u else u - 0x1_0000
  }

  function ReadUint32(b: seq<uint8>, offset: nat): nat
    requires offset + 4 <= |b|
  {
    b[offset] as nat + 256 * b[offset + 1] as nat
    + 0x1_0000 * b[offset + 2] as nat + 0x100_0000 * b[offset + 3] as nat
  }

  lemma LE16RoundTrip(v: int)
    ensures ReadUint16(LE16(v), 0) == v % 0x1_0000
    ensures -0x8000 <= v < 0x8000 ==> ReadInt16(LE16(v), 0) == v
  {
  }

  lemma LE32RoundTrip(v: int)
    ensures ReadUint32(LE32(v), 0) == v % 0x1_0000_0000
  {
    var q1 := v / 256;
    var q2 := q1 / 256;
    var q3 := q2 / 256;
    assert v / 0x1_0000 == q2;
    assert v / 0x100_0000 == q3;
    assert v == v % 256 + 256 * (q1 % 256) + 0x1_0000 * (q2 % 256) + 0x100_0000 * (q3 % 256) + 0x1_0000_0000 * (q3 / 256);
  }

  /** The byte `setUint8` stores for a character code. */
  function CharByte(c: char): uint8
  {
    (c as int % 256) as uint8
  }

  function Ascii(s: string): (r: seq<uint8>)
    ensures |r| == |s|
    ensures forall i :: 0 <= i < |s| ==> r[i] == CharByte(s[i])
  {
    seq(|s|, i requires 0 <= i < |s| => CharByte(s[i]))
  }

  // ---------------------------------------------------------------------------
  // The file layout
  // ---------------------------------------------------------------------------

  /** The sample value before `setInt16`: clamped to [-1, 1], then scaled by
      0x8000 when negative and by 0x7FFF otherwise. */
  function ScaledSample(sample: real): real
  {
    var clamped := if sample < -1.0 then -1.0 else if sample > 1.0 then 1.0 else sample;
    if clamped < 0.0 then clamped * 32768.0 else clamped * 32767.0
  }

  /** The stored 16-bit value never leaves the int16 range and keeps the sign. */
  lemma ScaledSampleRange(sample: real)
    ensures -0x8000 <= Trunc(ScaledSample(sample)) <= 0x7FFF
    ensures sample < 0.0 ==> Trunc(ScaledSample(sample)) <= 0
    ensures sample >= 0.0 ==> Trunc(ScaledSample(sample)) >= 0
    ensures sample <= -1.0 ==> Trunc(ScaledSample(sample)) == -0x8000
    ensures sample >= 1.0 ==> Trunc(ScaledSample(sample)) == 0x7FFF
  {
  }

  /** The RIFF chunk header: `RIFF`, the size of the rest of the file, `WAVE`. */
  function RiffHeader(n: nat): (r: seq<uint8>)
    ensures |r| == 12
  {
    Ascii("RIFF") + LE32(36 + 2 * n) + Ascii("WAVE")
  }

  /** The `fmt ` chunk: size 16, PCM, one channel, the sample rate, the byte
      rate, the block alignment and 16 bits per sample. */
  function FmtChunk(sampleRate: real): (r: seq<uint8>)
    ensures |r| == 24
  {
    FmtFormat() + FmtRates(sampleRate)
  }

  /** Tag, chunk size, PCM format code, one channel. */
  function FmtFormat(): (r: seq<uint8>)
    ensures |r| == 12
  {
    Ascii("fmt ") + LE32(16) + LE16(1) + LE16(1)
  }

  /** Sample rate, byte rate, block alignment, bits per sample. */
  function FmtRates(sampleRate: real): (r: seq<uint8>)
    ensures |r| == 12
  {
    LE32(Trunc(sampleRate)) + LE32(Trunc(sampleRate * 2.0)) + LE16(2) + LE16(16)
  }

  /** The `data` chunk header: `data` and the size of the sample bytes. */
  function DataHeader(n: nat): (r: seq<uint8>)
    ensures |r| == 8
  {
    Ascii("data") + LE32(2 * n)
  }

  function Header(sampleRate: real, n: nat): (r: seq<uint8>)
    ensures |r| == HeaderSize
  {
    RiffHeader(n) + FmtChunk(sampleRate) + DataHeader(n)
  }

  function SampleBytes(samples: seq<real>): (r: seq<uint8>)
    ensures |r| == 2 * |samples|
  {
    if samples == [] then []
    else SampleBytes(samples[..|samples| - 1]) + LE16(Trunc(ScaledSample(samples[|samples| - 1])))
  }

  /** The whole file. */
  function WavFile(sampleRate: real, samples: seq<real>): (r: seq<uint8>)
    ensures |r| == HeaderSize + 2 * |samples|
  {
    Header(sampleRate, |samples|) + SampleBytes(samples)
  }

  /** Reading inside a known slice reads the slice. */
  lemma ReadThrough(f: seq<uint8>, start: nat, chunk: seq<uint8>, k: nat)
    requires start + |chunk| <= |f| && f[start..start + |chunk|] == chunk
    ensures k + 2 <= |chunk| ==> ReadUint16(f, start + k) == ReadUint16(chunk, k)
    ensures k + 4 <= |chunk| ==> ReadUint32(f, start + k) == ReadUint32(chunk, k)
  {
    if k + 2 <= |chunk| {
      assert f[start + k] == chunk[k] && f[start + k + 1] == chunk[k + 1];
    }
    if k + 4 <= |chunk| {
      assert f[start + k + 2] == chunk[k + 2] && f[start + k + 3] == chunk[k + 3];
    }
  }

  lemma RiffHeaderFields(n: nat)
    ensures var c := RiffHeader(n);
      c[0..4] == Ascii("RIFF") && c[8..12] == Ascii("WAVE")
      && ReadUint32(c, 4) == (36 + 2 * n) % 0x1_0000_0000
  {
    LE32RoundTrip(36 + 2 * n);
  }

  lemma FmtChunkFields(sampleRate: real)
    ensures var c := FmtChunk(sampleRate);
      && c[0..4] == Ascii("fmt ")
      && ReadUint32(c, 4) == 16
      && ReadUint16(c, 8) == 1
      && ReadUint16(c, 10) == 1
      && ReadUint32(c, 12) == Trunc(sampleRate) % 0x1_0000_0000
      && ReadUint32(c, 16) == Trunc(sampleRate * 2.0) % 0x1_0000_0000
      && ReadUint16(c, 20) == 2
      && ReadUint16(c, 22) == 16
  {
    LE32RoundTrip(16);
    LE32RoundTrip(Trunc(sampleRate));
    LE32RoundTrip(Trunc(sampleRate * 2.0));
  }

  lemma DataHeaderFields(n: nat)
    ensures var c := DataHeader(n);
      c[0..4] == Ascii("data") && ReadUint32(c, 4) == (2 * n) % 0x1_0000_0000
  {
    LE32RoundTrip(2 * n);
  }

  /** The header, field by field, as a reader of the format decodes it. */
  lemma HeaderFields(sampleRate: real, samples: seq<real>)
    ensures var f, n := WavFile(sampleRate, samples), |samples|;
      && f[0..4] == Ascii("RIFF") && f[8..12] == Ascii("WAVE")
      && f[12..16] == Ascii("fmt ") && f[36..40] == Ascii("data")
      && ReadUint32(f, 4) == (36 + 2 * n) % 0x1_0000_0000
      && ReadUint32(f, 16) == 16
      && ReadUint16(f, 20) == 1
      && ReadUint16(f, 22) == 1
      && ReadUint32(f, 24) == Trunc(sampleRate) % 0x1_0000_0000
      && ReadUint32(f, 28) == Trunc(sampleRate * 2.0) % 0x1_0000_0000
      && ReadUint16(f, 32) == 2
      && ReadUint16(f, 34) == 16
      && ReadUint32(f, 40) == (2 * n) % 0x1_0000_0000
  {
    var f, n := WavFile(sampleRate, samples), |samples|;
    var riff, fmt, data := RiffHeader(n), FmtChunk(sampleRate), DataHeader(n);
    assert f[0..12] == riff;
    assert f[12..36] == fmt;
    assert f[36..44] == data;
    RiffHeaderFields(n);
    FmtChunkFields(sampleRate);
    DataHeaderFields(n);
    assert f[0..4] == riff[0..4] && f[8..12] == riff[8..12];
    assert f[12..16] == fmt[0..4] && f[36..40] == data[0..4];
    ReadThrough(f, 0, riff, 4);
    ReadThrough(f, 12, fmt, 4);
    ReadThrough(f, 12, fmt, 8);
    ReadThrough(f, 12, fmt, 10);
    ReadThrough(f, 12, fmt, 12);
    ReadThrough(f, 12, fmt, 16);
    ReadThrough(f, 12, fmt, 20);
    ReadThrough(f, 12, fmt, 22);
    ReadThrough(f, 36, data, 4);
  }

  /** Sample `i` occupies bytes `44 + 2i` and `45 + 2i`, in SampleBytes order. */
  lemma {:induction false} SampleBytesAt(samples: seq<real>, i: nat)
    requires i < |samples|
    ensures SampleBytes(samples)[2 * i..2 * i + 2] == LE16(Trunc(ScaledSample(samples[i])))
  {
    var init := samples[..|samples| - 1];
    if i < |samples| - 1 {
      SampleBytesAt(init, i);
      assert SampleBytes(samples)[..2 * |init|] == SampleBytes(init);
    }
  }

  /** Each sample reads back as its clamped, scaled, truncated value. */
  lemma SampleDecodes(sampleRate: real, samples: seq<real>, i: nat)
    requires i < |samples|
    ensures ReadInt16(WavFile(sampleRate, samples), HeaderSize + 2 * i) == Trunc(ScaledSample(samples[i]))
  {
    var f := WavFile(sampleRate, samples);
    SampleBytesAt(samples, i);
    assert f[HeaderSize + 2 * i..HeaderSize + 2 * i + 2] == SampleBytes(samples)[2 * i..2 * i + 2];
    ScaledSampleRange(samples[i]);
    LE16RoundTrip(Trunc(ScaledSample(samples[i])));
  }

  // ---------------------------------------------------------------------------
  // The writer
  // ---------------------------------------------------------------------------

  /** Writes `bytes` at `offset`, leaving the bytes before and after it alone. */
  twostate predicate WroteAt(view: array<uint8>, offset: nat, bytes: seq<uint8>)
    reads view
  {
    && offset + |bytes| <= view.Length
    && view[..offset] == old(view[..offset])
    && view[offset..offset + |bytes|] == bytes
    && view[offset + |bytes|..] == old(view[offset + |bytes|..])
  }

  /** `writeString`: one `setUint8` per character. */
  method WriteString(view: array<uint8>, offset: nat, str: string)
    requires offset + |str| <= view.Length
    modifies view
    ensures WroteAt(view, offset, Ascii(str))
  {
    for i := 0 to |str|
      invariant view[..offset] == old(view[..offset])
      invariant forall k :: 0 <= k < i ==> view[offset + k] == CharByte(str[k])
      invariant view[offset + i..] == old(view[offset + i..])
    {
      view[offset + i] := CharByte(str[i]);
    }
  }

  /** `DataView.setUint16(offset, value, true)`; `setInt16` stores the same bytes. */
  method SetUint16(view: array<uint8>, offset: nat, value: real)
    requires offset + 2 <= view.Length
    modifies view
    ensures WroteAt(view, offset, LE16(Trunc(value)))
  {
    var bytes := LE16(Trunc(value));
    view[offset] := bytes[0];
    view[offset + 1] := bytes[1];
  }

  /** `DataView.setUint32(offset, value, true)`. */
  method SetUint32(view: array<uint8>, offset: nat, value: real)
    requires offset + 4 <= view.Length
    modifies view
    ensures WroteAt(view, offset, LE32(Trunc(value)))
  {
    var bytes := LE32(Trunc(value));
    view[offset] := bytes[0];
    view[offset + 1] := bytes[1];
    view[offset + 2] := bytes[2];
    view[offset + 3] := bytes[3];
  }

  /** After a write that starts where the known prefix ends, the prefix grows by the written bytes. */
  lemma Extend(before: seq<uint8>, after: seq<uint8>, prefix: seq<uint8>, bytes: seq<uint8>)
    requires |prefix| + |bytes| <= |after| && |prefix| <= |before|
    requires before[..|prefix|] == prefix
    requires after[..|prefix|] == before[..|prefix|]
    requires after[|prefix|..|prefix| + |bytes|] == bytes
    ensures after[..|prefix| + |bytes|] == prefix + bytes
  {
    assert after[..|prefix| + |bytes|] == after[..|prefix|] + after[|prefix|..|prefix| + |bytes|];
  }

  /** `RIFF`, the file size less 8, `WAVE` (offsets 0-11). */
  method WriteRiffHeader(view: array<uint8>, fileSize: nat)
    requires 12 <= view.Length && fileSize >= 36 && (fileSize - 36) % 2 == 0
    modifies view
    ensures WroteAt(view, 0, RiffHeader((fileSize - 36) / 2))
  {
    ghost var before := view[..];
    WriteString(view, 0, "RIFF");
    Extend(before, view[..], [], Ascii("RIFF"));
    before := view[..];
    SetUint32(view, 4, fileSize as real);
    Extend(before, view[..], Ascii("RIFF"), LE32(fileSize));
    before := view[..];
    WriteString(view, 8, "WAVE");
    Extend(before, view[..], Ascii("RIFF") + LE32(fileSize), Ascii("WAVE"));
  }

  /** The `fmt ` chunk (offsets 12-35), leaving offsets 0-11 alone. */
  method WriteFmtChunk(view: array<uint8>, sampleRate: real)
    requires 36 <= view.Length
    modifies view
    ensures view[..12] == old(view[..12]) && view[12..36] == FmtChunk(sampleRate)
  {
    ghost var start := view[..12];
    WriteFmtFormat(view);
    WriteFmtRates(view, sampleRate);
    assert view[..36] == start + FmtFormat() + FmtRates(sampleRate);
    assert view[12..36] == view[..36][12..];
  }

  /** Offsets 12-23 of the `fmt ` chunk. */
  method WriteFmtFormat(view: array<uint8>)
    requires 36 <= view.Length
    modifies view
    ensures view[..24] == old(view[..12]) + FmtFormat()
  {
    var numChannels := 1;
    ghost var start := view[..12];
    ghost var before := view[..];
    WriteString(view, 12, "fmt ");
    Extend(before, view[..], start, Ascii("fmt "));
    ghost var prefix := start + Ascii("fmt ");
    before := view[..];
    SetUint32(view, 16, 16.0);
    Extend(before, view[..], prefix, LE32(16));
    prefix, before := prefix + LE32(16), view[..];
    SetUint16(view, 20, 1.0);
    Extend(before, view[..], prefix, LE16(1));
    prefix, before := prefix + LE16(1), view[..];
    SetUint16(view, 22, numChannels as real);
    Extend(before, view[..], prefix, LE16(1));
  }

  /** Offsets 24-35 of the `fmt ` chunk: rates and sample layout. */
  method WriteFmtRates(view: array<uint8>, sampleRate: real)
    requires 36 <= view.Length
    modifies view
    ensures view[..36] == old(view[..24]) + FmtRates(sampleRate)
  {
    var numChannels := 1;
    var bitsPerSample := 16;
    var byteRate := sampleRate * numChannels as real * 2.0;
    var blockAlign := numChannels * 2;
    ghost var prefix := view[..24];
    ghost var before := view[..];
    SetUint32(view, 24, sampleRate);
    Extend(before, view[..], prefix, LE32(Trunc(sampleRate)));
    prefix, before := prefix + LE32(Trunc(sampleRate)), view[..];
    SetUint32(view, 28, byteRate);
    assert byteRate == sampleRate * 2.0;
    Extend(before, view[..], prefix, LE32(Trunc(byteRate)));
    prefix, before := prefix + LE32(Trunc(byteRate)), view[..];
    SetUint16(view, 32, blockAlign as real);
    Extend(before, view[..], prefix, LE16(2));
    prefix, before := prefix + LE16(2), view[..];
    SetUint16(view, 34, bitsPerSample as real);
    Extend(before, view[..], prefix, LE16(16));
  }

  /** `data` and the data size (offsets 36-43), leaving offsets 0-35 alone. */
  method WriteDataHeader(view: array<uint8>, dataSize: nat)
    requires 44 <= view.Length && dataSize % 2 == 0
    modifies view
    ensures view[..36] == old(view[..36]) && view[36..44] == DataHeader(dataSize / 2)
  {
    ghost var start := view[..36];
    ghost var before := view[..];
    WriteString(view, 36, "data");
    Extend(before, view[..], start, Ascii("data"));
    before := view[..];
    SetUint32(view, 40, dataSize as real);
    Extend(before, view[..], start + Ascii("data"), LE32(dataSize));
    assert view[..44] == start + DataHeader(dataSize / 2);
    assert view[36..44] == view[..44][36..];
  }

  lemma SampleBytesSnoc(samples: seq<real>, i: nat)
    requires i < |samples|
    ensures SampleBytes(samples[..i + 1]) == SampleBytes(samples[..i]) + LE16(Trunc(ScaledSample(samples[i])))
  {
    assert samples[..i + 1][..i] == samples[..i];
  }

  /** The 44 header bytes, written in file order. */
  method WriteHeader(view: array<uint8>, sampleRate: real, n: nat)
    requires view.Length == 44 + 2 * n
    modifies view
    ensures view[..44] == Header(sampleRate, n)
  {
    var dataSize := 2 * n;
    var fileSize := 36 + dataSize;
    WriteRiffHeader(view, fileSize);
    ghost var riff := view[..12];
    WriteFmtChunk(view, sampleRate);
    assert view[..36] == riff + FmtChunk(sampleRate) by {
      assert view[..36] == view[..12] + view[12..36];
    }
    WriteDataHeader(view, dataSize);
    assert view[..44] == view[..36] + view[36..44];
  }

  /** One pass of the sample loop: sample `i`, clamped and scaled, stored as
      a little-endian 16-bit integer right after the samples before it. */
  method WriteSample(view: array<uint8>, samples: seq<real>, i: nat, ghost header: seq<uint8>)
    requires |header| == HeaderSize && i < |samples| && view.Length == HeaderSize + 2 * |samples|
    requires view[..HeaderSize + 2 * i] == header + SampleBytes(samples[..i])
    modifies view
    ensures view[..HeaderSize + 2 * (i + 1)] == header + SampleBytes(samples[..i + 1])
  {
    var int16Sample := ScaledSample(samples[i]);
    ghost var written := header + SampleBytes(samples[..i]);
    ghost var bytes := LE16(Trunc(int16Sample));
    ghost var before := view[..];
    assert |written| == HeaderSize + 2 * i;
    SetUint16(view, HeaderSize + 2 * i, int16Sample);
    assert view[..|written|] == before[..|written|];
    assert view[|written|..|written| + 2] == bytes;
    Extend(before, view[..], written, bytes);
    SampleBytesSnoc(samples, i);
  }

  /** `createWavBlob`: a buffer of 44 + 2n bytes holding the header and then
      every sample in order. */
  method CreateWavBlob(sampleRate: real, samples: array<real>) returns (buffer: array<uint8>)
    ensures fresh(buffer)
    ensures buffer[..] == WavFile(sampleRate, samples[..])
  {
    var dataSize := 2 * samples.Length;
    buffer := new uint8[HeaderSize + dataSize](_ => 0);
    WriteHeader(buffer, sampleRate, samples.Length);
    ghost var header := buffer[..HeaderSize];
    ghost var input := samples[..];
    assert header + SampleBytes(input[..0]) == header;

    for i := 0 to samples.Length
      invariant buffer[..HeaderSize + 2 * i] == header + SampleBytes(input[..i])
    {
      WriteSample(buffer, samples[..], i, header);
    }
    assert input[..samples.Length] == input;
  }

  // ---------------------------------------------------------------------------
  // The download file name
  // ---------------------------------------------------------------------------

  /** The words that go into the file name: the first five, or all when fewer. */
  function FileNameWords(words: seq<string>): (r: seq<string>)
    ensures |r| == if |words| > MaxFileNameWords then MaxFileNameWords else |words|
    ensures r == words[..|r|]
  {
    if |words| > MaxFileNameWords then words[..MaxFileNameWords] else words
  }

  /** The download name: the kept words joined by `_`, then the ISO timestamp
      with every `:` replaced by `.`, then `.wav`. The clock reading is a
      parameter. */
  function WavFileName(words: seq<string>, isoTimestamp: string): (r: string)
    ensures var stem := Text.Join(FileNameWords(words), "_");
      && |r| == |stem| + |isoTimestamp| + 4
      && r[..|stem|] == stem
      && r[|stem|..|r| - 4] == Text.ReplaceChar(isoTimestamp, ':', '.')
      && ':' !in r[|stem|..|r| - 4]
      && r[|r| - 4..] == ".wav"
  {
    var stem := Text.Join(FileNameWords(words), "_");
    var stamp := Text.ReplaceChar(isoTimestamp, ':', '.');
    var r := stem + stamp + ".wav";
    assert r[|stem|..|r| - 4] == stamp;
    r
  }

  /** When no word contains `_`, the word part of the name splits back into
      the kept words, so the words can be read off the file name. */
  lemma WavFileNameParts(words: seq<string>, isoTimestamp: string)
    requires 1 <= |words| && forall i :: 0 <= i < |words| ==> '_' !in words[i]
    ensures var name := WavFileName(words, isoTimestamp);
      var stem := Text.Join(FileNameWords(words), "_");
      Text.Split(name[..|stem|], '_') == FileNameWords(words)
  {
    Text.SplitJoin(FileNameWords(words), '_');
  }
}
