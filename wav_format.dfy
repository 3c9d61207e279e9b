/** The canonical 44-byte PCM header of the RIFF WAVE file format (Microsoft/IBM
    "Multimedia Programming Interface and Data Specifications 1.0", WAVE form):
    a `RIFF` chunk of form type `WAVE` holding a 16-byte `fmt ` chunk and a
    `data` chunk, every number little-endian. Both encoders of the soundboard
    write this header; this module defines the byte writers they use (the
    little-endian `DataView` setters), the readers a decoder would use, and the
    header itself with its field-by-field round trip. */
module WavFormat {
  import opened Types

  const TWO16 := 0x1_0000
  const TWO32 := 0x1_0000_0000

  /** Size of the header; the sample data starts here. */
  const HeaderSize := 44

  /** `DataView.setUint16(pos, v, true)`: v is reduced modulo 2^16 (ToUint16),
      then written low byte first. `setInt16` writes the same two bytes. */
  function U16(v: int): (r: seq<byte>)
    ensures |r| == 2
  {
    var w := v % TWO16;
    [w % 256, w / 256]
  }

  /** `DataView.setUint32(pos, v, true)`: v is reduced modulo 2^32 (ToUint32),
      then written least significant byte first. */
  function U32(v: int): (r: seq<byte>)
    ensures |r| == 4
  {
    var w := v % TWO32;
    [w % 256, (w / 256) % 256, (w / 0x1_0000) % 256, w / 0x100_0000]
  }

  /** Unsigned 16-bit little-endian read at `off`. */
  function ReadU16(s: seq<byte>, off: nat): int
    requires off + 2 <= |s|
  {
    s[off] as int + 256 * (s[off + 1] as int)
  }

  /** Unsigned 32-bit little-endian read at `off`. */
  function ReadU32(s: seq<byte>, off: nat): int
    requires off + 4 <= |s|
  {
    s[off] as int + 256 * (s[off + 1] as int) + 0x1_0000 * (s[off + 2] as int)
    + 0x100_0000 * (s[off + 3] as int)
  }

  /** Signed (two's complement) 16-bit little-endian read at `off`. */
  function ReadI16(s: seq<byte>, off: nat): int
    requires off + 2 <= |s|
  {
    var u := ReadU16(s, off);
    if u >= 0x8000 then u - TWO16 else u
  }

  /** The character codes of a tag such as "RIFF". */
  function Ascii(tag: string): (r: seq<byte>)
    requires forall i :: 0 <= i < |tag| ==> tag[i] as int < 256
    ensures |r| == |tag|
    ensures forall i :: 0 <= i < |tag| ==> r[i] == tag[i] as int
  {
    seq(|tag|, i requires 0 <= i < |tag| => tag[i] as int)
  }

  lemma {:induction false} U16RoundTrip(s: seq<byte>, off: nat, v: int)
    requires off + 2 <= |s| && s[off..off + 2] == U16(v)
    ensures ReadU16(s, off) == v % TWO16
  {
    var w := v % TWO16;
    assert s[off] == U16(v)[0] && s[off + 1] == U16(v)[1];
    assert w == w % 256 + 256 * (w / 256);
  }

  lemma {:induction false} U32RoundTrip(s: seq<byte>, off: nat, v: int)
    requires off + 4 <= |s| && s[off..off + 4] == U32(v)
    ensures ReadU32(s, off) == v % TWO32
  {
    var w := v % TWO32;
    assert s[off] == U32(v)[0] && s[off + 1] == U32(v)[1];
    assert s[off + 2] == U32(v)[2] && s[off + 3] == U32(v)[3];
    var a, b := w / 256, w / 0x1_0000;
    assert w == w % 256 + 256 * a;
    assert a == a % 256 + 256 * (a / 256);
    assert a / 256 == b;
    assert b == b % 256 + 256 * (b / 256);
    assert b / 256 == w / 0x100_0000;
  }

  /** Writing a signed sample in [-32768, 32767] with `setInt16` and reading it
      back as a signed 16-bit value returns the sample. */
  lemma {:induction false} I16RoundTrip(s: seq<byte>, off: nat, v: int)
    requires -0x8000 <= v < 0x8000
    requires off + 2 <= |s| && s[off..off + 2] == U16(v)
    ensures ReadI16(s, off) == v
  {
    U16RoundTrip(s, off, v);
  }

  /** The `RIFF` chunk head: tag, chunk size, form type. */
  function RiffHead(dataSize: int): (r: seq<byte>)
    ensures |r| == 12
  {
    Ascii("RIFF") + U32(36 + dataSize) + Ascii("WAVE")
  }

  /** The complete `fmt ` chunk for 16-bit PCM: block align = channels * 2
      bytes, byte rate = sampleRate * block align. */
  function FmtChunk(channels: int, sampleRate: int): (r: seq<byte>)
    ensures |r| == 24
  {
    FmtFormat(channels) + FmtRates(channels, sampleRate)
  }

  /** The first half of the `fmt ` chunk: tag, chunk size 16, format 1 (PCM),
      channel count. */
  function FmtFormat(channels: int): (r: seq<byte>)
    ensures |r| == 12
  {
    Ascii("fmt ") + U32(16) + U16(1) + U16(channels)
  }

  /** The second half: sample rate, byte rate, block align, bits per sample. */
  function FmtRates(channels: int, sampleRate: int): (r: seq<byte>)
    ensures |r| == 12
  {
    var blockAlign := channels * 2;
    U32(sampleRate) + U32(sampleRate * blockAlign) + U16(blockAlign) + U16(16)
  }

  /** The `data` chunk head: tag and the size of the samples that follow. */
  function DataHead(dataSize: int): (r: seq<byte>)
    ensures |r| == 8
  {
    Ascii("data") + U32(dataSize)
  }

  /** The canonical header for 16-bit PCM with `channels` interleaved channels
      and `dataSize` bytes of samples. The RIFF size counts everything after
      its own field: 4 + (8 + 16) + (8 + dataSize). */
  function Header(channels: int, sampleRate: int, dataSize: int): (h: seq<byte>)
    ensures |h| == HeaderSize
  {
    RiffHead(dataSize) + FmtChunk(channels, sampleRate) + DataHead(dataSize)
  }

  /** Reading inside a piece `t` found at offset `d` of `s` reads `t`. */
  lemma ReadInside(s: seq<byte>, d: nat, t: seq<byte>, off: nat)
    requires d + |t| <= |s| && s[d..d + |t|] == t
    ensures off + 2 <= |t| ==> ReadU16(s, d + off) == ReadU16(t, off)
    ensures off + 4 <= |t| ==> ReadU32(s, d + off) == ReadU32(t, off)
  {
    if off + 2 <= |t| {
      assert s[d + off] == t[off] && s[d + off + 1] == t[off + 1];
    }
    if off + 4 <= |t| {
      assert s[d + off + 2] == t[off + 2] && s[d + off + 3] == t[off + 3];
    }
  }

  lemma RiffHeadFields(dataSize: int)
    ensures var r := RiffHead(dataSize);
      r[0..4] == Ascii("RIFF") && r[8..12] == Ascii("WAVE") && ReadU32(r, 4) == (36 + dataSize) % TWO32
  {
    var r := RiffHead(dataSize);
    assert r[4..8] == U32(36 + dataSize);
    U32RoundTrip(r, 4, 36 + dataSize);
  }

  lemma FmtFormatFields(channels: int)
    ensures var f := FmtFormat(channels);
      && f[0..4] == Ascii("fmt ")
      && ReadU32(f, 4) == 16 && ReadU16(f, 8) == 1
      && ReadU16(f, 10) == channels % TWO16
  {
    var f := FmtFormat(channels);
    assert f[4..8] == U32(16);
    U32RoundTrip(f, 4, 16);
    assert f[8..10] == U16(1);
    U16RoundTrip(f, 8, 1);
    assert f[10..12] == U16(channels);
    U16RoundTrip(f, 10, channels);
  }

  lemma ByteRate(sampleRate: int, channels: int)
    ensures sampleRate * (channels * 2) == sampleRate * channels * 2
  {
  }

  lemma FmtRatesFields(channels: int, sampleRate: int)
    ensures var f := FmtRates(channels, sampleRate);
      && ReadU32(f, 0) == sampleRate % TWO32
      && ReadU32(f, 4) == (sampleRate * channels * 2) % TWO32
      && ReadU16(f, 8) == (channels * 2) % TWO16
      && ReadU16(f, 10) == 16
  {
    var f := FmtRates(channels, sampleRate);
    var blockAlign := channels * 2;
    assert f[0..4] == U32(sampleRate);
    U32RoundTrip(f, 0, sampleRate);
    assert f[4..8] == U32(sampleRate * blockAlign);
    U32RoundTrip(f, 4, sampleRate * blockAlign);
    ByteRate(sampleRate, channels);
    assert f[8..10] == U16(blockAlign);
    U16RoundTrip(f, 8, blockAlign);
    assert f[10..12] == U16(16);
    U16RoundTrip(f, 10, 16);
  }

  lemma FmtChunkFields(channels: int, sampleRate: int)
    ensures var f := FmtChunk(channels, sampleRate);
      && f[0..4] == Ascii("fmt ")
      && ReadU32(f, 4) == 16 && ReadU16(f, 8) == 1
      && ReadU16(f, 10) == channels % TWO16
      && ReadU32(f, 12) == sampleRate % TWO32
      && ReadU32(f, 16) == (sampleRate * channels * 2) % TWO32
      && ReadU16(f, 20) == (channels * 2) % TWO16
      && ReadU16(f, 22) == 16
  {
    var f := FmtChunk(channels, sampleRate);
    var a, r := FmtFormat(channels), FmtRates(channels, sampleRate);
    assert f[0..12] == a && f[12..24] == r && f[0..4] == a[0..4];
    FmtFormatFields(channels);
    FmtRatesFields(channels, sampleRate);
    ReadInside(f, 0, a, 4);
    ReadInside(f, 0, a, 8);
    ReadInside(f, 0, a, 10);
    ReadInside(f, 12, r, 0);
    ReadInside(f, 12, r, 4);
    ReadInside(f, 12, r, 8);
    ReadInside(f, 12, r, 10);
  }

  lemma DataHeadFields(dataSize: int)
    ensures var d := DataHead(dataSize);
      d[0..4] == Ascii("data") && ReadU32(d, 4) == dataSize % TWO32
  {
    var d := DataHead(dataSize);
    assert d[4..8] == U32(dataSize);
    U32RoundTrip(d, 4, dataSize);
  }

  /** Every header field reads back as the value written (modulo the field's
      width), and the four chunk tags sit at offsets 0, 8, 12 and 36. */
  lemma HeaderFields(channels: int, sampleRate: int, dataSize: int)
    ensures var h := Header(channels, sampleRate, dataSize);
      && h[0..4] == Ascii("RIFF") && h[8..12] == Ascii("WAVE")
      && h[12..16] == Ascii("fmt ") && h[36..40] == Ascii("data")
      && ReadU32(h, 4) == (36 + dataSize) % TWO32
      && ReadU32(h, 16) == 16
      && ReadU16(h, 20) == 1
      && ReadU16(h, 22) == channels % TWO16
      && ReadU32(h, 24) == sampleRate % TWO32
      && ReadU32(h, 28) == (sampleRate * channels * 2) % TWO32
      && ReadU16(h, 32) == (channels * 2) % TWO16
      && ReadU16(h, 34) == 16
      && ReadU32(h, 40) == dataSize % TWO32
  {
    var h := Header(channels, sampleRate, dataSize);
    var r, f, d := RiffHead(dataSize), FmtChunk(channels, sampleRate), DataHead(dataSize);
    assert h[0..12] == r && h[12..36] == f && h[36..44] == d;
    RiffHeadFields(dataSize);
    FmtChunkFields(channels, sampleRate);
    DataHeadFields(dataSize);
    assert h[0..4] == r[0..4] && h[8..12] == r[8..12];
    assert h[12..16] == f[0..4] && h[36..40] == d[0..4];
    ReadInside(h, 0, r, 4);
    ReadInside(h, 12, f, 4);
    ReadInside(h, 12, f, 8);
    ReadInside(h, 12, f, 10);
    ReadInside(h, 12, f, 12);
    ReadInside(h, 12, f, 16);
    ReadInside(h, 12, f, 20);
    ReadInside(h, 12, f, 22);
    ReadInside(h, 36, d, 4);
  }

  /** A header followed by the data: 44 + |data| bytes, the header first, and
      its size, channel count, rate and byte rate fields read from the
      file. */
  lemma HeaderThenData(channels: int, sampleRate: int, dataSize: int, data: seq<byte>)
    ensures var h, w := Header(channels, sampleRate, dataSize), Header(channels, sampleRate, dataSize) + data;
      && |w| == HeaderSize + |data| && w[..HeaderSize] == h
      && ReadU32(w, 4) == (36 + dataSize) % TWO32
      && ReadU16(w, 22) == channels % TWO16
      && ReadU32(w, 24) == sampleRate % TWO32
      && ReadU32(w, 28) == (sampleRate * channels * 2) % TWO32
      && ReadU32(w, 40) == dataSize % TWO32
  {
    var h := Header(channels, sampleRate, dataSize);
    HeaderFields(channels, sampleRate, dataSize);
    HeaderReads(h, data);
  }

  /** A header followed by anything keeps the header's fields where they
      were. */
  lemma HeaderReads(h: seq<byte>, rest: seq<byte>)
    requires |h| == HeaderSize
    ensures var w := h + rest;
      && w[..HeaderSize] == h
      && ReadU32(w, 4) == ReadU32(h, 4) && ReadU16(w, 22) == ReadU16(h, 22)
      && ReadU32(w, 24) == ReadU32(h, 24) && ReadU32(w, 28) == ReadU32(h, 28)
      && ReadU32(w, 40) == ReadU32(h, 40)
  {
    var w := h + rest;
    assert w[..HeaderSize] == h;
    ReadInside(w, 0, h, 4);
    ReadInside(w, 0, h, 22);
    ReadInside(w, 0, h, 24);
    ReadInside(w, 0, h, 28);
    ReadInside(w, 0, h, 40);
  }

  /** The tag words `bufferToWav` writes as 32-bit numbers are the ASCII tags. */
  lemma TagWords()
    ensures U32(0x46464952) == Ascii("RIFF")
    ensures U32(0x45564157) == Ascii("WAVE")
    ensures U32(0x20746d66) == Ascii("fmt ")
    ensures U32(0x61746164) == Ascii("data")
  {
  }

  // ---------------------------------------------------------------------
  // The little-endian DataView setters, writing into an ArrayBuffer in place

  /** `view.setUint16(at, v, true)`. */
  method SetUint16At(view: array<byte>, at: nat, v: int)
    requires at + 2 <= view.Length
    modifies view
    ensures view[..at + 2] == old(view[..at]) + U16(v)
    ensures forall k :: at + 2 <= k < view.Length ==> view[k] == old(view[k])
  {
    var le := U16(v);
    view[at] := le[0];
    view[at + 1] := le[1];
  }

  /** `view.setInt16(at, v, true)`: the same two bytes as `setUint16`. */
  method SetInt16At(view: array<byte>, at: nat, v: int)
    requires at + 2 <= view.Length
    modifies view
    ensures view[..at + 2] == old(view[..at]) + U16(v)
    ensures forall k :: at + 2 <= k < view.Length ==> view[k] == old(view[k])
  {
    SetUint16At(view, at, v);
  }

  /** `view.setUint32(at, v, true)`. */
  method SetUint32At(view: array<byte>, at: nat, v: int)
    requires at + 4 <= view.Length
    modifies view
    ensures view[..at + 4] == old(view[..at]) + U32(v)
    ensures forall k :: at + 4 <= k < view.Length ==> view[k] == old(view[k])
  {
    var le := U32(v);
    view[at] := le[0];
    view[at + 1] := le[1];
    view[at + 2] := le[2];
    view[at + 3] := le[3];
  }
}
