/** `bufferToWav` of the audio editor: serialises a decoded buffer as a
    16-bit PCM WAVE file, the header written field by field through a byte
    cursor, then the samples interleaved frame by frame.

    The editor's sample loop reuses the header cursor as its frame counter, so
    it starts at frame 44 instead of frame 0. `BufferToWavAsWritten` models
    that loop as it stands; `BufferToWav` is the same encoder with the frame
    counter starting at 0. The editor model takes the encoder as a parameter,
    so its properties are stated for both. */
module WavEncoder {
  import opened Types
  import opened WavFormat

  // ---------------------------------------------------------------------
  // Sample quantisation

  /** `Math.max(-1, Math.min(1, s))`. */
  function Clamp(s: real): (r: real)
    ensures -1.0 <= r <= 1.0
    ensures -1.0 <= s <= 1.0 ==> r == s
    ensures s > 1.0 ==> r == 1.0
    ensures s < -1.0 ==> r == -1.0
  {
    if s < -1.0 then -1.0 else if s > 1.0 then 1.0 else s
  }

  /** `x | 0` for |x| < 2^31: truncation toward zero. */
  function Trunc(x: real): (r: int)
    ensures x >= 0.0 ==> 0 <= r && r as real <= x < r as real + 1.0
    ensures x < 0.0 ==> r <= 0 && r as real - 1.0 < x <= r as real
  {
    if x >= 0.0 then x.Floor else -((-x).Floor)
  }

  /** One float sample to a signed 16-bit value: clamp, then scale by 32768
      when `0.5 + s < 0` (that is, s < -0.5) and by 32767 otherwise, then
      truncate toward zero. */
  function Quantise(s: real): (q: int)
    ensures -0x8000 <= q < 0x8000
  {
    var c := Clamp(s);
    var scaled := if 0.5 + c < 0.0 then c * 32768.0 else c * 32767.0;
    TruncBounds(scaled);
    Trunc(scaled)
  }

  lemma TruncBounds(x: real)
    ensures -32768.0 <= x <= 32767.0 ==> -0x8000 <= Trunc(x) < 0x8000
  {
  }

  /** Full scale maps to the ends of the 16-bit range, silence to 0, values
      outside [-1, 1] to their clamped value, and a sample in [-0.5, 0) is
      scaled by 32767 (the branch tests `0.5 + s < 0`, not `s < 0`). */
  lemma QuantiseValues(s: real)
    ensures Quantise(1.0) == 0x7FFF && Quantise(-1.0) == -0x8000 && Quantise(0.0) == 0
    ensures s >= 1.0 ==> Quantise(s) == 0x7FFF
    ensures s <= -1.0 ==> Quantise(s) == -0x8000
    ensures Quantise(s) == Quantise(Clamp(s))
    ensures Quantise(-0.5) == -16383 && Quantise(-0.75) == -24576
  {
    assert (16383.5 as real).Floor == 16383;
  }

  /** Quantisation never reverses the order of two samples, also across the
      switch of scale at -0.5. */
  lemma QuantiseMonotone(x: real, y: real)
    requires x <= y
    ensures Quantise(x) <= Quantise(y)
  {
    var cx, cy := Clamp(x), Clamp(y);
    assert cx <= cy;
    if 0.5 + cx < 0.0 && 0.5 + cy >= 0.0 {
      assert cx * 32768.0 < -16384.0;
      assert cy * 32767.0 >= -16383.5;
    }
  }

  // ---------------------------------------------------------------------
  // The interleaved layout

  /** Channels 0 .. i-1 of frame p, each a 16-bit little-endian word. */
  function Channels(b: AudioBuffer, p: nat, i: nat): (r: seq<byte>)
    requires b.Valid() && p < b.length && i <= |b.channelData|
    ensures |r| == 2 * i
  {
    if i == 0 then [] else Channels(b, p, i - 1) + U16(Quantise(b.channelData[i - 1][p]))
  }

  /** Frames lo .. hi-1, interleaved: all channels of one frame, then the next. */
  function Frames(b: AudioBuffer, lo: nat, hi: nat): seq<byte>
    requires b.Valid() && (lo < hi ==> hi <= b.length)
    decreases hi
  {
    if hi <= lo then [] else Frames(b, lo, hi - 1) + Channels(b, hi - 1, |b.channelData|)
  }

  /** Each frame takes 2 bytes per channel. */
  lemma {:induction false} FramesLength(b: AudioBuffer, lo: nat, hi: nat)
    requires b.Valid() && (lo < hi ==> hi <= b.length)
    ensures |Frames(b, lo, hi)| == if lo <= hi then 2 * |b.channelData| * (hi - lo) else 0
    decreases hi
  {
    if hi > lo {
      FramesLength(b, lo, hi - 1);
      MulStep(hi - 1 - lo, |b.channelData|);
    }
  }

  lemma MulStep(x: nat, n: nat)
    ensures 2 * n * (x + 1) == 2 * n * x + 2 * n
  {
  }

  /** The editor's `length * channels * 2` is the layout's `2 * channels * length`. */
  lemma ByteCount(len: nat, n: nat)
    ensures len * n * 2 == 2 * n * len
  {
  }

  lemma Interleaved(p: nat, n: nat, c: nat)
    ensures 2 * (p * n + c) == 2 * n * p + 2 * c
  {
  }

  lemma MulSub(n: nat, a: nat, b: nat)
    requires b <= a
    ensures 2 * n * a - 2 * n * b == 2 * n * (a - b)
  {
  }

  lemma MulLe(x: nat, y: nat, n: nat)
    requires x <= y
    ensures 2 * n * x <= 2 * n * y
  {
  }

  lemma MulBelow(x: nat, y: nat, n: nat, c: nat)
    requires x < y && c < n
    ensures 2 * n * x + 2 * c + 2 <= 2 * n * y
  {
    var d := y - x;
    assert 2 * n * y == 2 * n * x + 2 * n * d;
    assert 2 * n * d == 2 * n + 2 * n * (d - 1);
    assert 2 * n * (d - 1) >= 0;
  }

  lemma {:induction false} ChannelsAt(b: AudioBuffer, p: nat, i: nat, c: nat)
    requires b.Valid() && p < b.length && c < i <= |b.channelData|
    ensures var w := U16(Quantise(b.channelData[c][p]));
      Channels(b, p, i)[2 * c] == w[0] && Channels(b, p, i)[2 * c + 1] == w[1]
  {
    if c < i - 1 {
      ChannelsAt(b, p, i - 1, c);
    }
  }

  /** A run of one frame is that frame's channels. */
  lemma FramesOne(b: AudioBuffer, p: nat)
    requires b.Valid() && p < b.length
    ensures Frames(b, p, p + 1) == Channels(b, p, |b.channelData|)
  {
    assert Frames(b, p, p) == [];
  }

  /** Two bytes of the middle part of a three-part concatenation. */
  lemma IndexInMiddle(w: seq<byte>, a: seq<byte>, m: seq<byte>, z: seq<byte>, k: nat, i: nat)
    requires w == a + (m + z) && k == |a| + i && i + 2 <= |m|
    ensures k + 2 <= |w| && w[k] == m[i] && w[k + 1] == m[i + 1]
  {
  }

  /** The byte offset of channel c in frame j of an n-channel run. */
  function FrameOffset(n: nat, j: nat, c: nat): nat
  {
    2 * n * j + 2 * c
  }

  /** Channel c of frame p sits at byte 2 * channels * (p - lo) + 2 * c of the
      run of frames lo .. hi-1. */
  lemma FramesAt(b: AudioBuffer, lo: nat, hi: nat, p: nat, c: nat)
    requires b.Valid() && hi <= b.length && lo <= p < hi && c < |b.channelData|
    ensures var k := FrameOffset(|b.channelData|, p - lo, c);
      && k + 2 <= |Frames(b, lo, hi)|
      && Frames(b, lo, hi)[k] == Channels(b, p, |b.channelData|)[2 * c]
      && Frames(b, lo, hi)[k + 1] == Channels(b, p, |b.channelData|)[2 * c + 1]
  {
    var n := |b.channelData|;
    var k := FrameOffset(n, p - lo, c);
    var before, frame, after := Frames(b, lo, p), Frames(b, p, p + 1), Frames(b, p + 1, hi);
    FramesSplit(b, lo, p, hi);
    FramesSplit(b, p, p + 1, hi);
    FramesLength(b, lo, p);
    FramesOne(b, p);
    IndexInMiddle(Frames(b, lo, hi), before, frame, after, k, 2 * c);
  }

  /** One more frame appends all channels of frame `pos`, and the frames up
      to `pos + 1` still fit in the frames up to the end. */
  lemma FramesStep(b: AudioBuffer, lo: nat, pos: nat)
    requires b.Valid() && lo <= pos < b.length
    ensures Frames(b, lo, pos + 1) == Frames(b, lo, pos) + Channels(b, pos, |b.channelData|)
    ensures |Frames(b, lo, pos + 1)| == |Frames(b, lo, pos)| + 2 * |b.channelData|
    ensures |Frames(b, lo, pos + 1)| <= |Frames(b, lo, b.length)|
  {
    FramesSplit(b, lo, pos + 1, b.length);
  }

  /** Frames lo .. hi-1 followed by frames hi .. top-1 are frames lo .. top-1. */
  lemma {:induction false} FramesSplit(b: AudioBuffer, lo: nat, mid: nat, hi: nat)
    requires b.Valid() && lo <= mid <= hi <= b.length
    ensures Frames(b, lo, hi) == Frames(b, lo, mid) + Frames(b, mid, hi)
    decreases hi
  {
    if hi > mid {
      var last := Channels(b, hi - 1, |b.channelData|);
      FramesSplit(b, lo, mid, hi - 1);
      assert Frames(b, mid, hi) == Frames(b, mid, hi - 1) + last;
      assert Frames(b, lo, hi) == Frames(b, lo, hi - 1) + last;
      Regroup(Frames(b, lo, mid), Frames(b, mid, hi - 1), last, Frames(b, mid, hi));
    } else {
      assert Frames(b, mid, hi) == [];
    }
  }

  // ---------------------------------------------------------------------
  // The file as intended

  /** The whole file `bufferToWav` is meant to produce: the header, then every
      frame from 0 interleaved. */
  function WavFile(b: AudioBuffer): (r: seq<byte>)
    requires b.Valid()
  {
    var n := |b.channelData|;
    Header(n, b.sampleRate, 2 * n * b.length) + Frames(b, 0, b.length)
  }

  /** The file is frames * channels * 2 + 44 bytes long, and its header
      describes the buffer: RIFF size = length - 8, the channel count, the
      sample rate, data size = length - 44. */
  lemma WavFileHeader(b: AudioBuffer)
    requires b.Valid()
    ensures var w, n := WavFile(b), |b.channelData|;
      && |w| == b.length * n * 2 + 44
      && w[..HeaderSize] == Header(n, b.sampleRate, |w| - 44)
      && ReadU32(w, 4) == (|w| - 8) % TWO32
      && ReadU16(w, 22) == n % TWO16
      && ReadU32(w, 24) == b.sampleRate % TWO32
      && ReadU32(w, 40) == (|w| - 44) % TWO32
  {
    var n := |b.channelData|;
    var ds := 2 * n * b.length;
    FramesLength(b, 0, b.length);
    HeaderThenData(n, b.sampleRate, ds, Frames(b, 0, b.length));
    ByteCount(b.length, n);
  }

  /** The sample of channel c at frame p is the little-endian signed word at
      byte 44 + 2 * (p * channels + c), holding the quantised source sample:
      the channels are interleaved frame by frame. */
  lemma WavFileSampleAt(b: AudioBuffer, p: nat, c: nat)
    requires b.Valid() && p < b.length && c < |b.channelData|
    ensures var w, n := WavFile(b), |b.channelData|;
      44 + 2 * (p * n + c) + 2 <= |w| && ReadI16(w, 44 + 2 * (p * n + c)) == Quantise(b.channelData[c][p])
  {
    var n := |b.channelData|;
    var h, d := Header(n, b.sampleRate, 2 * n * b.length), Frames(b, 0, b.length);
    var k, v := 2 * (p * n + c), Quantise(b.channelData[c][p]);
    assert WavFile(b) == h + d;
    FramesAt(b, 0, b.length, p, c);
    ChannelsAt(b, p, n, c);
    Interleaved(p, n, c);
    WordAfterHeader(h, d, k, v);
  }

  /** A signed word found at offset k of the data reads back at 44 + k. */
  lemma WordAfterHeader(h: seq<byte>, d: seq<byte>, k: nat, v: int)
    requires |h| == HeaderSize && k + 2 <= |d| && -0x8000 <= v < 0x8000
    requires d[k] == U16(v)[0] && d[k + 1] == U16(v)[1]
    ensures ReadI16(h + d, 44 + k) == v
  {
    assert (h + d)[44 + k..44 + k + 2] == U16(v);
    I16RoundTrip(h + d, 44 + k, v);
  }

  // ---------------------------------------------------------------------
  // The file as the editor's loop writes it

  function Zeros(count: nat): (r: seq<byte>)
    ensures |r| == count && forall k :: 0 <= k < count ==> r[k] == 0
  {
    seq(count, _ => 0)
  }

  /** The file the editor's loop leaves: frames 44 .. length-1 interleaved
      right after the header, then zero bytes where the loop never writes
      (the whole data chunk when there are at most 44 frames). */
  function WavFileAsWritten(b: AudioBuffer): (r: seq<byte>)
    requires b.Valid()
  {
    var n := |b.channelData|;
    var kept := if b.length > 44 then b.length - 44 else 0;
    Header(n, b.sampleRate, 2 * n * b.length) + Frames(b, 44, b.length)
      + Zeros(2 * n * (b.length - kept))
  }

  /** As written, the file is the intended one with its first 44 frames cut
      out and 44 frames of silence appended: same header, same length. */
  lemma AsWrittenShifted(b: AudioBuffer)
    requires b.Valid() && b.length >= 44
    ensures var n := |b.channelData|;
      && |WavFileAsWritten(b)| == |WavFile(b)|
      && WavFileAsWritten(b)
           == WavFile(b)[..HeaderSize] + WavFile(b)[HeaderSize + 2 * n * 44..] + Zeros(2 * n * 44)
  {
    var n := |b.channelData|;
    var h := Header(n, b.sampleRate, 2 * n * b.length);
    var f0, f1 := Frames(b, 0, 44), Frames(b, 44, b.length);
    FramesSplit(b, 0, 44, b.length);
    FramesLength(b, 0, 44);
    assert |f0| == 2 * n * 44;
    var w := WavFile(b);
    assert w == h + (f0 + f1);
    assert w[..HeaderSize] == h;
    assert w[HeaderSize + |f0|..] == f1;
    var kept := if b.length > 44 then b.length - 44 else 0;
    assert b.length - kept == 44;
    assert WavFileAsWritten(b) == h + f1 + Zeros(2 * n * 44);
    assert |WavFileAsWritten(b)| == HeaderSize + |f1| + |f0| == |w|;
  }

  /** As written, the word at byte 44 + 2 * (p * channels + c) holds frame
      p + 44 of channel c, not frame p. */
  lemma AsWrittenSampleAt(b: AudioBuffer, p: nat, c: nat)
    requires b.Valid() && p + 44 < b.length && c < |b.channelData|
    ensures var w, n := WavFileAsWritten(b), |b.channelData|;
      44 + 2 * (p * n + c) + 2 <= |w| && ReadI16(w, 44 + 2 * (p * n + c)) == Quantise(b.channelData[c][p + 44])
  {
    var n := |b.channelData|;
    var h, d := Header(n, b.sampleRate, 2 * n * b.length), Frames(b, 44, b.length);
    var z := Zeros(2 * n * 44);
    var k, v := 2 * (p * n + c), Quantise(b.channelData[c][p + 44]);
    assert WavFileAsWritten(b) == h + (d + z);
    FramesAt(b, 44, b.length, p + 44, c);
    ChannelsAt(b, p + 44, n, c);
    Interleaved(p, n, c);
    assert (d + z)[k] == d[k] && (d + z)[k + 1] == d[k + 1];
    WordAfterHeader(h, d + z, k, v);
  }

  /** Any clip longer than 44 frames whose first sample is full scale and
      whose frame 44 is silent shows the shift: the intended file starts its
      data with 32767, the file as written starts it with 0. */
  lemma AsWrittenDropsFirstFrames(b: AudioBuffer)
    requires b.Valid() && b.length > 44 && |b.channelData| >= 1
    requires b.channelData[0][0] == 1.0 && b.channelData[0][44] == 0.0
    ensures ReadI16(WavFile(b), 44) == 0x7FFF && ReadI16(WavFileAsWritten(b), 44) == 0
  {
    QuantiseValues(0.0);
    WavFileSampleAt(b, 0, 0);
    AsWrittenSampleAt(b, 0, 0);
  }

  // ---------------------------------------------------------------------
  // The encoder

  /** The nested `setUint16`: write `v` little-endian at the cursor, advance it. */
  method SetUint16(view: array<byte>, pos: nat, v: int) returns (next: nat)
    requires pos + 2 <= view.Length
    modifies view
    ensures next == pos + 2
    ensures view[..next] == old(view[..pos]) + U16(v)
    ensures forall k :: next <= k < view.Length ==> view[k] == old(view[k])
  {
    SetUint16At(view, pos, v);
    next := pos + 2;
  }

  /** The nested `setUint32`: write `v` little-endian at the cursor, advance it. */
  method SetUint32(view: array<byte>, pos: nat, v: int) returns (next: nat)
    requires pos + 4 <= view.Length
    modifies view
    ensures next == pos + 4
    ensures view[..next] == old(view[..pos]) + U32(v)
    ensures forall k :: next <= k < view.Length ==> view[k] == old(view[k])
  {
    SetUint32At(view, pos, v);
    next := pos + 4;
  }

  /** The first three cursor writes of the header: "RIFF", length - 8, "WAVE". */
  method WriteRiffHead(view: array<byte>, pos: nat, length: nat) returns (next: nat)
    requires pos + 12 <= view.Length
    modifies view
    ensures next == pos + 12
    ensures view[..next] == old(view[..pos]) + RiffHead(length - 44)
    ensures forall k :: next <= k < view.Length ==> view[k] == old(view[k])
  {
    TagWords();
    next := SetUint32(view, pos, 0x46464952);      // "RIFF"
    next := SetUint32(view, next, length - 8);
    next := SetUint32(view, next, 0x45564157);     // "WAVE"
  }

  /** The first four cursor writes of the `fmt ` chunk: tag, chunk size,
      format 1 (PCM), channel count. */
  method WriteFmtFormat(view: array<byte>, pos: nat, numOfChan: nat) returns (next: nat)
    requires pos + 12 <= view.Length
    modifies view
    ensures next == pos + 12
    ensures view[..next] == old(view[..pos]) + FmtFormat(numOfChan)
    ensures forall k :: next <= k < view.Length ==> view[k] == old(view[k])
  {
    TagWords();
    next := SetUint32(view, pos, 0x20746d66);      // "fmt "
    next := SetUint32(view, next, 16);
    next := SetUint16(view, next, 1);              // PCM
    next := SetUint16(view, next, numOfChan);
  }

  /** The last four cursor writes of the `fmt ` chunk: sample rate, byte
      rate, block align, bits per sample. */
  method WriteFmtRates(view: array<byte>, pos: nat, numOfChan: nat, sampleRate: nat) returns (next: nat)
    requires pos + 12 <= view.Length
    modifies view
    ensures next == pos + 12
    ensures view[..next] == old(view[..pos]) + FmtRates(numOfChan, sampleRate)
    ensures forall k :: next <= k < view.Length ==> view[k] == old(view[k])
  {
    next := SetUint32(view, pos, sampleRate);
    assert sampleRate * 2 * numOfChan == sampleRate * (numOfChan * 2);
    next := SetUint32(view, next, sampleRate * 2 * numOfChan);
    next := SetUint16(view, next, numOfChan * 2);  // block align
    next := SetUint16(view, next, 16);             // bits per sample
  }

  /** The eight cursor writes of the `fmt ` chunk. */
  method WriteFmtChunk(view: array<byte>, pos: nat, numOfChan: nat, sampleRate: nat) returns (next: nat)
    requires pos + 24 <= view.Length
    modifies view
    ensures next == pos + 24
    ensures view[..next] == old(view[..pos]) + FmtChunk(numOfChan, sampleRate)
    ensures forall k :: next <= k < view.Length ==> view[k] == old(view[k])
  {
    next := WriteFmtFormat(view, pos, numOfChan);
    next := WriteFmtRates(view, next, numOfChan, sampleRate);
  }

  /** The last two cursor writes: "data" and the data size, computed from the
      cursor as `length - pos - 4`. */
  method WriteDataHead(view: array<byte>, pos: nat, length: nat) returns (next: nat)
    requires pos == 36 && length >= 44 && pos + 8 <= view.Length
    modifies view
    ensures next == pos + 8
    ensures view[..next] == old(view[..pos]) + DataHead(length - 44)
    ensures forall k :: next <= k < view.Length ==> view[k] == old(view[k])
  {
    TagWords();
    next := SetUint32(view, pos, 0x61746164);      // "data"
    next := SetUint32(view, next, length - next - 4);
  }

  /** The header part of `bufferToWav`: thirteen cursor writes into a fresh
      zeroed buffer of `length` bytes. */
  method WriteHeader(numOfChan: nat, sampleRate: nat, length: nat) returns (view: array<byte>, pos: nat)
    requires length >= HeaderSize
    ensures fresh(view) && view.Length == length && pos == HeaderSize
    ensures view[..HeaderSize] == Header(numOfChan, sampleRate, length - HeaderSize)
    ensures forall k :: HeaderSize <= k < length ==> view[k] == 0
  {
    view := new byte[length](_ => 0);
    pos := 0;
    pos := WriteRiffHead(view, pos, length);
    pos := WriteFmtChunk(view, pos, numOfChan, sampleRate);
    pos := WriteDataHead(view, pos, length);
  }

  /** The inner loop of `bufferToWav`: frame `pos` of every channel, in channel
      order, written as 16-bit samples from byte `at` on. */
  method WriteFrame(view: array<byte>, channels: seq<seq<real>>, buffer: AudioBuffer, pos: nat, at: nat)
    returns (next: nat)
    requires buffer.Valid() && channels == buffer.channelData && pos < buffer.length
    requires at + 2 * |channels| <= view.Length
    modifies view
    ensures next == at + 2 * |channels|
    ensures view[..next] == old(view[..at]) + Channels(buffer, pos, |channels|)
    ensures forall k :: next <= k < view.Length ==> view[k] == old(view[k])
  {
    next := at;
    for i := 0 to |channels|
      invariant next == at + 2 * i
      invariant view[..next] == old(view[..at]) + Channels(buffer, pos, i)
      invariant forall k :: next <= k < view.Length ==> view[k] == old(view[k])
    {
      var sample := Quantise(channels[i][pos]);
      SetInt16At(view, next, sample);
      next := next + 2;
    }
  }

  /** The sample loop of `bufferToWav`: frames `start` up to the end of the
      buffer, interleaved, written right after the header; `offset` counts the
      bytes written. Nothing else in `view` changes. */
  method WriteSamples(view: array<byte>, channels: seq<seq<real>>, buffer: AudioBuffer, start: nat)
    returns (offset: nat)
    requires buffer.Valid() && channels == buffer.channelData
    requires HeaderSize + |Frames(buffer, start, buffer.length)| <= view.Length
    modifies view
    ensures offset == |Frames(buffer, start, buffer.length)|
    ensures view[..HeaderSize + offset] == old(view[..HeaderSize]) + Frames(buffer, start, buffer.length)
    ensures forall k :: HeaderSize + offset <= k < view.Length ==> view[k] == old(view[k])
  {
    var numOfChan := |channels|;
    offset := 0;
    var pos := start;
    while pos < buffer.length
      invariant start <= pos && (pos <= buffer.length || pos == start)
      invariant offset == |Frames(buffer, start, pos)| && HeaderSize + offset <= view.Length
      invariant view[..HeaderSize + offset] == old(view[..HeaderSize]) + Frames(buffer, start, pos)
      invariant forall k :: HeaderSize + offset <= k < view.Length ==> view[k] == old(view[k])
    {
      FramesStep(buffer, start, pos);
      ghost var done := view[..HeaderSize + offset];
      label before:
      var next := WriteFrame(view, channels, buffer, pos, HeaderSize + offset);
      assert view[..next] == done + Channels(buffer, pos, numOfChan);
      Regroup(old(view[..HeaderSize]), Frames(buffer, start, pos), Channels(buffer, pos, numOfChan),
              Frames(buffer, start, pos + 1));
      forall k | next <= k < view.Length
        ensures view[k] == old(view[k])
      {
        assert view[k] == old@before(view[k]);
      }
      offset := next - HeaderSize;
      pos := pos + 1;
    }
  }

  lemma Regroup(a: seq<byte>, f: seq<byte>, c: seq<byte>, g: seq<byte>)
    requires g == f + c
    ensures (a + f) + c == a + g
  {
  }

  /** `bufferToWav` with the frame counter starting at 0. */
  method BufferToWav(buffer: AudioBuffer) returns (wav: Blob)
    requires buffer.Valid()
    ensures wav == WavFile(buffer)
  {
    var numOfChan := |buffer.channelData|;
    var length := buffer.length * numOfChan * 2 + 44;
    FramesLength(buffer, 0, buffer.length);
    ByteCount(buffer.length, numOfChan);
    var view, pos := WriteHeader(numOfChan, buffer.sampleRate, length);
    var channels: seq<seq<real>> := [];
    for i := 0 to numOfChan
      invariant channels == buffer.channelData[..i]
    {
      channels := channels + [buffer.channelData[i]];
    }
    var offset := WriteSamples(view, channels, buffer, 0);
    wav := view[..];
    assert wav == view[..HeaderSize + offset];
  }

  /** `bufferToWav` as it stands: the sample loop continues from the header
      cursor, 44, instead of frame 0. */
  method BufferToWavAsWritten(buffer: AudioBuffer) returns (wav: Blob)
    requires buffer.Valid()
    ensures wav == WavFileAsWritten(buffer)
  {
    var numOfChan := |buffer.channelData|;
    var length := buffer.length * numOfChan * 2 + 44;
    ghost var kept := if buffer.length > 44 then buffer.length - 44 else 0;
    ByteCount(buffer.length, numOfChan);
    FramesLength(buffer, 44, buffer.length);
    MulLe(kept, buffer.length, numOfChan);
    var view, pos := WriteHeader(numOfChan, buffer.sampleRate, length);
    var channels: seq<seq<real>> := [];
    for i := 0 to numOfChan
      invariant channels == buffer.channelData[..i]
    {
      channels := channels + [buffer.channelData[i]];
    }
    var offset := WriteSamples(view, channels, buffer, pos);
    wav := view[..];
    assert offset == 2 * numOfChan * kept;
    MulSub(numOfChan, buffer.length, kept);
    assert view[HeaderSize + offset..] == Zeros(2 * numOfChan * (buffer.length - kept));
    assert wav == view[..HeaderSize + offset] + view[HeaderSize + offset..];
  }
}
