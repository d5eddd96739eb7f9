/**
 * The front end's WAV header helpers (front-end/src/utils/audioUtils.js): the
 * canonical 44-byte RIFF/WAVE header for PCM data (format tag 1) of the
 * Multimedia Programming Interface and Data Specifications 1.0, written
 * through a little-endian DataView into a 44-byte buffer, and read back.
 */
module AudioUtils {
  import opened Wrappers

  type Byte = b: int | 0 <= b < 256

  const Two16: nat := 65536
  const Two32: nat := 4294967296

  /** `view.setUint8(o, code)` stores the low byte of the character code. */
  function LowByte(c: char): Byte
  {
    (c as int) % 256
  }

  function LowBytes(s: string): (r: seq<Byte>)
    ensures |r| == |s|
    ensures forall i :: 0 <= i < |s| ==> r[i] == LowByte(s[i])
  {
    seq(|s|, i requires 0 <= i < |s| => LowByte(s[i]))
  }

  /** The two bytes `setUint16(o, v, true)` stores: v modulo 2^16, low byte first. */
  function LE16(v: nat): (r: seq<Byte>)
    ensures |r| == 2
  {
    var x := v % Two16;
    [x % 256, x / 256]
  }

  /** The four bytes `setUint32(o, v, true)` stores: v modulo 2^32, low byte first. */
  function LE32(v: nat): (r: seq<Byte>)
    ensures |r| == 4
  {
    var x := v % Two32;
    [x % 256, (x / 256) % 256, (x / 256 / 256) % 256, x / 256 / 256 / 256]
  }

  /** The value of two bytes, low byte first. */
  function Word16(s: seq<Byte>): nat
    requires |s| == 2
  {
    s[0] as int + 256 * (s[1] as int)
  }

  /** The value of four bytes, low byte first. */
  function Word32(s: seq<Byte>): nat
    requires |s| == 4
  {
    s[0] as int + 256 * (s[1] as int) + 65536 * (s[2] as int) + 16777216 * (s[3] as int)
  }

  /** `getUint16(o, true)`. */
  function U16At(b: seq<Byte>, o: nat): nat
    requires o + 2 <= |b|
  {
    Word16(b[o..o + 2])
  }

  /** `getUint32(o, true)`. */
  function U32At(b: seq<Byte>, o: nat): nat
    requires o + 4 <= |b|
  {
    Word32(b[o..o + 4])
  }

  /** Reading back the two bytes `setUint16` stores gives the value modulo 2^16. */
  lemma LE16Value(v: nat)
    ensures Word16(LE16(v)) == v % Two16
  {
  }

  /** Reading back the four bytes `setUint32` stores gives the value modulo 2^32. */
  lemma LE32Value(v: nat)
    ensures Word32(LE32(v)) == v % Two32
  {
    var x := v % Two32;
    var q1 := x / 256;
    var q2 := q1 / 256;
    assert x == x % 256 + 256 * q1;
    assert q1 == q1 % 256 + 256 * q2;
    assert q2 == q2 % 256 + 256 * (q2 / 256);
  }

  /** The RIFF header: tag, the length of what follows, form type (audioUtils.js:17-22). */
  function RiffHeader(dataSize: nat): (r: seq<Byte>)
    ensures |r| == 12
  {
    LowBytes("RIFF") + LE32(36 + dataSize) + LowBytes("WAVE")
  }

  /** The 24-byte fmt chunk of PCM audio (audioUtils.js:23-38). */
  function FmtChunk(sampleRate: nat, channels: nat, bitDepth: nat): (r: seq<Byte>)
    ensures |r| == 24
  {
    FmtHead(channels) + FmtRates(sampleRate, channels, bitDepth)
  }

  /** Its first half: tag, chunk length 16, format tag 1 (PCM), channel count (audioUtils.js:23-30). */
  function FmtHead(channels: nat): (r: seq<Byte>)
    ensures |r| == 12
  {
    LowBytes("fmt ") + LE32(16) + LE16(1) + LE16(channels)
  }

  /** Its second half: sample rate, byte rate, block align, bit depth (audioUtils.js:31-38). */
  function FmtRates(sampleRate: nat, channels: nat, bitDepth: nat): (r: seq<Byte>)
    ensures |r| == 12
  {
    var byteRate := (sampleRate * channels * bitDepth) / 8;
    var blockAlign := (channels * bitDepth) / 8;
    LE32(sampleRate) + LE32(byteRate) + LE16(blockAlign) + LE16(bitDepth)
  }

  /** The data chunk's header: tag and length (audioUtils.js:39-42). */
  function DataHeader(dataSize: nat): (r: seq<Byte>)
    ensures |r| == 8
  {
    LowBytes("data") + LE32(dataSize)
  }

  /** The header `createWavHeader` builds (audioUtils.js:9-45). */
  function HeaderBytes(sampleRate: nat, channels: nat, bitDepth: nat, dataSize: nat): (h: seq<Byte>)
    ensures |h| == 44
  {
    RiffHeader(dataSize) + FmtChunk(sampleRate, channels, bitDepth) + DataHeader(dataSize)
  }

  // ---------------------------------------------------------------------------
  // Writing through the DataView
  // ---------------------------------------------------------------------------

  /** `writeString(view, offset, s)` (audioUtils.js:2-6). */
  method WriteString(view: array<Byte>, offset: nat, s: string)
    requires offset + |s| <= view.Length
    modifies view
    ensures view[..] == old(view[..])[..offset] + LowBytes(s) + old(view[..])[offset + |s|..]
  {
    for i := 0 to |s|
      invariant forall k :: 0 <= k < view.Length && !(offset <= k < offset + i) ==> view[k] == old(view[k])
      invariant forall k :: 0 <= k < i ==> view[offset + k] == LowByte(s[k])
    {
      view[offset + i] := LowByte(s[i]);
    }
  }

  /** `view.setUint16(offset, value, true)`. */
  method SetUint16(view: array<Byte>, offset: nat, value: nat)
    requires offset + 2 <= view.Length
    modifies view
    ensures view[..] == old(view[..])[..offset] + LE16(value) + old(view[..])[offset + 2..]
  {
    var b := LE16(value);
    view[offset] := b[0];
    view[offset + 1] := b[1];
  }

  /** `view.setUint32(offset, value, true)`. */
  method SetUint32(view: array<Byte>, offset: nat, value: nat)
    requires offset + 4 <= view.Length
    modifies view
    ensures view[..] == old(view[..])[..offset] + LE32(value) + old(view[..])[offset + 4..]
  {
    var b := LE32(value);
    view[offset] := b[0];
    view[offset + 1] := b[1];
    view[offset + 2] := b[2];
    view[offset + 3] := b[3];
  }

  /** A write at the end of a known prefix extends the prefix. */
  lemma WriteExtends(before: seq<Byte>, after: seq<Byte>, prefix: seq<Byte>, bytes: seq<Byte>)
    requires |prefix| + |bytes| <= |before|
    requires before[..|prefix|] == prefix
    requires after == before[..|prefix|] + bytes + before[|prefix| + |bytes|..]
    ensures after[..|prefix| + |bytes|] == prefix + bytes
  {
  }

  /** Writes the RIFF header at offset 0. */
  method WriteRiffHeader(view: array<Byte>, dataSize: nat)
    requires view.Length == 44
    modifies view
    ensures view[..12] == RiffHeader(dataSize)
  {
    WriteString(view, 0, "RIFF");
    assert view[..4] == LowBytes("RIFF");
    ghost var v := view[..];
    SetUint32(view, 4, 36 + dataSize);
    WriteExtends(v, view[..], LowBytes("RIFF"), LE32(36 + dataSize));
    v := view[..];
    WriteString(view, 8, "WAVE");
    WriteExtends(v, view[..], LowBytes("RIFF") + LE32(36 + dataSize), LowBytes("WAVE"));
  }

  /** Writes the fmt chunk after `prefix`, which holds the RIFF header. */
  method WriteFmtChunk(view: array<Byte>, sampleRate: nat, channels: nat, bitDepth: nat, ghost prefix: seq<Byte>)
    requires view.Length == 44 && |prefix| == 12 && view[..12] == prefix
    modifies view
    ensures view[..36] == prefix + FmtChunk(sampleRate, channels, bitDepth)
  {
    WriteFmtHead(view, channels, prefix);
    WriteFmtRates(view, sampleRate, channels, bitDepth, prefix + FmtHead(channels));
  }

  /** Writes the first half of the fmt chunk at offset 12 (audioUtils.js:23-30). */
  method WriteFmtHead(view: array<Byte>, channels: nat, ghost prefix: seq<Byte>)
    requires view.Length == 44 && |prefix| == 12 && view[..12] == prefix
    modifies view
    ensures view[..24] == prefix + FmtHead(channels)
  {
    ghost var v := view[..];
    WriteString(view, 12, "fmt ");
    WriteExtends(v, view[..], prefix, LowBytes("fmt "));
    ghost var p := prefix + LowBytes("fmt ");
    v := view[..];
    SetUint32(view, 16, 16);
    WriteExtends(v, view[..], p, LE32(16));
    p := p + LE32(16);
    v := view[..];
    SetUint16(view, 20, 1);
    WriteExtends(v, view[..], p, LE16(1));
    p := p + LE16(1);
    v := view[..];
    SetUint16(view, 22, channels);
    WriteExtends(v, view[..], p, LE16(channels));
  }

  /** Writes the second half of the fmt chunk at offset 24 (audioUtils.js:31-38). */
  method WriteFmtRates(view: array<Byte>, sampleRate: nat, channels: nat, bitDepth: nat, ghost prefix: seq<Byte>)
    requires view.Length == 44 && |prefix| == 24 && view[..24] == prefix
    modifies view
    ensures view[..36] == prefix + FmtRates(sampleRate, channels, bitDepth)
  {
    var byteRate := (sampleRate * channels * bitDepth) / 8;
    var blockAlign := (channels * bitDepth) / 8;
    ghost var v := view[..];
    SetUint32(view, 24, sampleRate);
    WriteExtends(v, view[..], prefix, LE32(sampleRate));
    ghost var p := prefix + LE32(sampleRate);
    v := view[..];
    SetUint32(view, 28, byteRate);
    WriteExtends(v, view[..], p, LE32(byteRate));
    p := p + LE32(byteRate);
    v := view[..];
    SetUint16(view, 32, blockAlign);
    WriteExtends(v, view[..], p, LE16(blockAlign));
    p := p + LE16(blockAlign);
    v := view[..];
    SetUint16(view, 34, bitDepth);
    WriteExtends(v, view[..], p, LE16(bitDepth));
  }

  /** Writes the data chunk's header after `prefix`, which holds the first 36 bytes. */
  method WriteDataHeader(view: array<Byte>, dataSize: nat, ghost prefix: seq<Byte>)
    requires view.Length == 44 && |prefix| == 36 && view[..36] == prefix
    modifies view
    ensures view[..] == prefix + DataHeader(dataSize)
  {
    ghost var v := view[..];
    WriteString(view, 36, "data");
    WriteExtends(v, view[..], prefix, LowBytes("data"));
    v := view[..];
    SetUint32(view, 40, dataSize);
    WriteExtends(v, view[..], prefix + LowBytes("data"), LE32(dataSize));
    assert view[..] == view[..44];
  }

  /** `createWavHeader` (audioUtils.js:9-45); the data's `byteLength` is passed as `dataSize`. */
  method CreateWavHeader(sampleRate: nat, channels: nat, bitDepth: nat, dataSize: nat)
    returns (buffer: array<Byte>)
    ensures fresh(buffer)
    ensures buffer[..] == HeaderBytes(sampleRate, channels, bitDepth, dataSize)
  {
    buffer := new Byte[44](_ => 0);
    WriteRiffHeader(buffer, dataSize);
    WriteFmtChunk(buffer, sampleRate, channels, bitDepth, RiffHeader(dataSize));
    WriteDataHeader(buffer, dataSize, RiffHeader(dataSize) + FmtChunk(sampleRate, channels, bitDepth));
  }

  // ---------------------------------------------------------------------------
  // Reading
  // ---------------------------------------------------------------------------

  datatype WavInfo = WavInfo(isValid: bool, sampleRate: nat, channels: nat, bitsPerSample: nat)

  /**
   * `parseWavHeader` (audioUtils.js:76-104); None when the view is too short
   * for the reads, where the DataView throws.
   */
  function ParseWavHeader(b: seq<Byte>): (r: Option<WavInfo>)
    ensures r.Some? <==> |b| >= 36
  {
    if |b| < 36 then None
    else
      var riff := [b[0] as char, b[1] as char, b[2] as char, b[3] as char];
      var wave := [b[8] as char, b[9] as char, b[10] as char, b[11] as char];
      Some(WavInfo(riff == "RIFF" && wave == "WAVE", U32At(b, 24), U16At(b, 22), U16At(b, 34)))
  }

  /** `isValid` holds exactly when bytes 0-3 spell RIFF and bytes 8-11 spell WAVE. */
  lemma ValidIffTags(b: seq<Byte>)
    requires |b| >= 36
    ensures ParseWavHeader(b).value.isValid <==> b[0..4] == LowBytes("RIFF") && b[8..12] == LowBytes("WAVE")
  {
    var riff := [b[0] as char, b[1] as char, b[2] as char, b[3] as char];
    var wave := [b[8] as char, b[9] as char, b[10] as char, b[11] as char];
    if riff == "RIFF" {
      assert b[0] == 'R' as int && b[1] == 'I' as int && b[2] == 'F' as int && b[3] == 'F' as int;
    }
    if wave == "WAVE" {
      assert b[8] == 'W' as int && b[9] == 'A' as int && b[10] == 'V' as int && b[11] == 'E' as int;
    }
    if b[0..4] == LowBytes("RIFF") {
      assert b[0] == LowBytes("RIFF")[0] && b[1] == LowBytes("RIFF")[1];
      assert b[2] == LowBytes("RIFF")[2] && b[3] == LowBytes("RIFF")[3];
    }
    if b[8..12] == LowBytes("WAVE") {
      assert b[8] == b[8..12][0] && b[9] == b[8..12][1] && b[10] == b[8..12][2] && b[11] == b[8..12][3];
    }
  }

  lemma RiffFields(dataSize: nat)
    ensures var r := RiffHeader(dataSize);
      r[0..4] == LowBytes("RIFF") && r[8..12] == LowBytes("WAVE")
      && r[4..8] == LE32(36 + dataSize)
  {
  }

  /** Where each piece of the fmt chunk sits. */
  lemma FmtSlices(sampleRate: nat, channels: nat, bitDepth: nat)
    ensures var f := FmtChunk(sampleRate, channels, bitDepth);
      && f[0..4] == LowBytes("fmt ") && f[4..8] == LE32(16) && f[8..10] == LE16(1) && f[10..12] == LE16(channels)
      && f[12..16] == LE32(sampleRate) && f[16..20] == LE32((sampleRate * channels * bitDepth) / 8)
      && f[20..22] == LE16((channels * bitDepth) / 8) && f[22..24] == LE16(bitDepth)
  {
    var f, a, b := FmtChunk(sampleRate, channels, bitDepth), FmtHead(channels), FmtRates(sampleRate, channels, bitDepth);
    assert f[0..12] == a && f[12..24] == b;
    HeadSlices(channels);
    RatesSlices(sampleRate, channels, bitDepth);
    ReadPart(f, 0, a, 0, 4);
    ReadPart(f, 0, a, 4, 4);
    ReadPart(f, 0, a, 8, 2);
    ReadPart(f, 0, a, 10, 2);
    ReadPart(f, 12, b, 0, 4);
    ReadPart(f, 12, b, 4, 4);
    ReadPart(f, 12, b, 8, 2);
    ReadPart(f, 12, b, 10, 2);
  }

  lemma HeadSlices(channels: nat)
    ensures var a := FmtHead(channels);
      a[0..4] == LowBytes("fmt ") && a[4..8] == LE32(16) && a[8..10] == LE16(1) && a[10..12] == LE16(channels)
  {
  }

  lemma RatesSlices(sampleRate: nat, channels: nat, bitDepth: nat)
    ensures var b := FmtRates(sampleRate, channels, bitDepth);
      && b[0..4] == LE32(sampleRate) && b[4..8] == LE32((sampleRate * channels * bitDepth) / 8)
      && b[8..10] == LE16((channels * bitDepth) / 8) && b[10..12] == LE16(bitDepth)
  {
    var w, x := LE32(sampleRate), LE32((sampleRate * channels * bitDepth) / 8);
    var y, z := LE16((channels * bitDepth) / 8), LE16(bitDepth);
    assert FmtRates(sampleRate, channels, bitDepth) == w + x + y + z;
  }

  lemma FmtFields(sampleRate: nat, channels: nat, bitDepth: nat)
    ensures var f := FmtChunk(sampleRate, channels, bitDepth);
      && f[0..4] == LowBytes("fmt ")
      && U32At(f, 4) == 16 && U16At(f, 8) == 1 && U16At(f, 10) == channels % Two16
      && U32At(f, 12) == sampleRate % Two32
      && U32At(f, 16) == ((sampleRate * channels * bitDepth) / 8) % Two32
      && U16At(f, 20) == ((channels * bitDepth) / 8) % Two16
      && U16At(f, 22) == bitDepth % Two16
  {
    var f := FmtChunk(sampleRate, channels, bitDepth);
    FmtSlices(sampleRate, channels, bitDepth);
    HeadFieldValues(f, channels);
    RateFieldValues(f, sampleRate, (sampleRate * channels * bitDepth) / 8, (channels * bitDepth) / 8, bitDepth);
  }

  lemma HeadFieldValues(f: seq<Byte>, channels: nat)
    requires |f| == 24 && f[4..8] == LE32(16) && f[8..10] == LE16(1) && f[10..12] == LE16(channels)
    ensures U32At(f, 4) == 16 && U16At(f, 8) == 1 && U16At(f, 10) == channels % Two16
  {
    LE32Value(16);
    LE16Value(1);
    LE16Value(channels);
  }

  lemma RateFieldValues(f: seq<Byte>, sampleRate: nat, byteRate: nat, blockAlign: nat, bitDepth: nat)
    requires |f| == 24 && f[12..16] == LE32(sampleRate) && f[16..20] == LE32(byteRate)
    requires f[20..22] == LE16(blockAlign) && f[22..24] == LE16(bitDepth)
    ensures U32At(f, 12) == sampleRate % Two32 && U32At(f, 16) == byteRate % Two32
    ensures U16At(f, 20) == blockAlign % Two16 && U16At(f, 22) == bitDepth % Two16
  {
    LE32Value(sampleRate);
    LE32Value(byteRate);
    LE16Value(blockAlign);
    LE16Value(bitDepth);
  }

  /**
   * The header's fields sit where the format puts them: the tags at 0, 8, 12
   * and 36; the RIFF length 36 + dataSize at 4 and the data length at 40; the
   * fmt length 16, format tag 1 (PCM), channels, sample rate, byte rate, block
   * align and bit depth at 16, 20, 22, 24, 28, 32 and 34, each reduced to its
   * field width.
   */
  lemma HeaderLayout(sampleRate: nat, channels: nat, bitDepth: nat, dataSize: nat)
    ensures var h := HeaderBytes(sampleRate, channels, bitDepth, dataSize);
      && h[0..4] == LowBytes("RIFF") && h[8..12] == LowBytes("WAVE")
      && h[12..16] == LowBytes("fmt ") && h[36..40] == LowBytes("data")
      && U32At(h, 4) == (36 + dataSize) % Two32 && U32At(h, 40) == dataSize % Two32
      && U32At(h, 16) == 16 && U16At(h, 20) == 1
      && U16At(h, 22) == channels % Two16 && U32At(h, 24) == sampleRate % Two32
      && U32At(h, 28) == ((sampleRate * channels * bitDepth) / 8) % Two32
      && U16At(h, 32) == ((channels * bitDepth) / 8) % Two16
      && U16At(h, 34) == bitDepth % Two16
  {
    var h := HeaderBytes(sampleRate, channels, bitDepth, dataSize);
    HeaderParts(sampleRate, channels, bitDepth, dataSize);
    RiffLayout(h, dataSize);
    FmtLayout(h, sampleRate, channels, bitDepth);
    DataLayout(h, dataSize);
  }

  /** The header is the RIFF header, the fmt chunk and the data chunk's header, in that order. */
  lemma HeaderParts(sampleRate: nat, channels: nat, bitDepth: nat, dataSize: nat)
    ensures var h := HeaderBytes(sampleRate, channels, bitDepth, dataSize);
      && h[0..12] == RiffHeader(dataSize)
      && h[12..36] == FmtChunk(sampleRate, channels, bitDepth)
      && h[36..44] == DataHeader(dataSize)
  {
  }

  /** A read inside a part of a byte sequence reads that part. */
  lemma ReadPart(h: seq<Byte>, a: nat, part: seq<Byte>, o: nat, k: nat)
    requires a + |part| <= |h| && h[a..a + |part|] == part && o + k <= |part|
    ensures h[a + o..a + o + k] == part[o..o + k]
  {
    var x, y := h[a + o..a + o + k], part[o..o + k];
    forall j | 0 <= j < k ensures x[j] == y[j] {
      assert h[a + o + j] == h[a..a + |part|][o + j];
    }
  }

  lemma RiffLayout(h: seq<Byte>, dataSize: nat)
    requires |h| == 44 && h[0..12] == RiffHeader(dataSize)
    ensures h[0..4] == LowBytes("RIFF") && h[8..12] == LowBytes("WAVE") && U32At(h, 4) == (36 + dataSize) % Two32
  {
    var r := RiffHeader(dataSize);
    assert r[0..4] == LowBytes("RIFF") && r[4..8] == LE32(36 + dataSize) && r[8..12] == LowBytes("WAVE");
    ReadPart(h, 0, r, 0, 4);
    ReadPart(h, 0, r, 4, 4);
    ReadPart(h, 0, r, 8, 4);
    LE32Value(36 + dataSize);
  }

  lemma FmtLayout(h: seq<Byte>, sampleRate: nat, channels: nat, bitDepth: nat)
    requires |h| == 44 && h[12..36] == FmtChunk(sampleRate, channels, bitDepth)
    ensures h[12..16] == LowBytes("fmt ")
      && U32At(h, 16) == 16 && U16At(h, 20) == 1
      && U16At(h, 22) == channels % Two16 && U32At(h, 24) == sampleRate % Two32
      && U32At(h, 28) == ((sampleRate * channels * bitDepth) / 8) % Two32
      && U16At(h, 32) == ((channels * bitDepth) / 8) % Two16
      && U16At(h, 34) == bitDepth % Two16
  {
    var f := FmtChunk(sampleRate, channels, bitDepth);
    FmtFields(sampleRate, channels, bitDepth);
    ReadPart(h, 12, f, 0, 4);
    ReadPart(h, 12, f, 4, 4);
    ReadPart(h, 12, f, 8, 2);
    ReadPart(h, 12, f, 10, 2);
    ReadPart(h, 12, f, 12, 4);
    ReadPart(h, 12, f, 16, 4);
    ReadPart(h, 12, f, 20, 2);
    ReadPart(h, 12, f, 22, 2);
  }

  lemma DataLayout(h: seq<Byte>, dataSize: nat)
    requires |h| == 44 && h[36..44] == DataHeader(dataSize)
    ensures h[36..40] == LowBytes("data") && U32At(h, 40) == dataSize % Two32
  {
    var d := DataHeader(dataSize);
    assert d[0..4] == LowBytes("data") && d[4..8] == LE32(dataSize);
    ReadPart(h, 36, d, 0, 4);
    ReadPart(h, 36, d, 4, 4);
    LE32Value(dataSize);
  }

  /**
   * Round trip: a created header parses as valid with the same sample rate,
   * channel count and bit depth, for values that fit their fields.
   */
  lemma HeaderRoundTrip(sampleRate: nat, channels: nat, bitDepth: nat, dataSize: nat)
    requires sampleRate < Two32 && channels < Two16 && bitDepth < Two16
    ensures ParseWavHeader(HeaderBytes(sampleRate, channels, bitDepth, dataSize))
      == Some(WavInfo(true, sampleRate, channels, bitDepth))
  {
    HeaderLayout(sampleRate, channels, bitDepth, dataSize);
    ModOfSmall(sampleRate, Two32);
    ModOfSmall(channels, Two16);
    ModOfSmall(bitDepth, Two16);
    ParseOfLayout(HeaderBytes(sampleRate, channels, bitDepth, dataSize), sampleRate, channels, bitDepth);
  }

  lemma ModOfSmall(x: nat, m: nat)
    requires x < m
    ensures x % m == x
  {
  }

  /** Any bytes with the two tags in place parse as valid, with the fields at 24, 22 and 34. */
  lemma ParseOfLayout(b: seq<Byte>, sampleRate: nat, channels: nat, bitDepth: nat)
    requires |b| >= 36 && b[0..4] == LowBytes("RIFF") && b[8..12] == LowBytes("WAVE")
    requires U32At(b, 24) == sampleRate && U16At(b, 22) == channels && U16At(b, 34) == bitDepth
    ensures ParseWavHeader(b) == Some(WavInfo(true, sampleRate, channels, bitDepth))
  {
    ValidIffTags(b);
  }
}
