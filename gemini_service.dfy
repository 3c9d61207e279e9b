/** The text-to-speech helper's byte handling: `decode` turns the binary
    string of the decoded base64 payload into bytes, and `pcmToWav` wraps raw
    16-bit mono PCM in the canonical WAVE header, written at fixed offsets. */
module GeminiService {
  import opened Types
  import opened WavFormat
  import WavEncoder

  /** The sample rate of the speech service's PCM output. */
  const TtsSampleRate := 24000

  /** The char code of each character, as a `Uint8Array` element (ToUint8:
      modulo 256). */
  function CharCodes(s: string): (r: seq<byte>)
    ensures |r| == |s|
  {
    seq(|s|, i requires 0 <= i < |s| => s[i] as int % 256)
  }

  /** On a binary string (every code below 256, what `atob` yields) the bytes
      are exactly the char codes; this is also what `writeString` stores for
      the four ASCII tags. */
  lemma CharCodesExact(s: string)
    requires forall i :: 0 <= i < |s| ==> s[i] as int < 256
    ensures CharCodes(s) == Ascii(s)
    ensures forall i :: 0 <= i < |s| ==> CharCodes(s)[i] == s[i] as int
  {
  }

  /** `decode` after `atob`: one byte per character of the binary string. */
  method Decode(binary: string) returns (bytes: array<byte>)
    ensures fresh(bytes)
    ensures bytes[..] == CharCodes(binary)
  {
    var len := |binary|;
    bytes := new byte[len];
    for i := 0 to len
      invariant bytes[..i] == CharCodes(binary)[..i]
    {
      bytes[i] := binary[i] as int % 256;
    }
  }

  /** The nested `writeString`: the char code of each character, one byte
      each, from `offset` on. */
  method WriteString(view: array<byte>, offset: nat, tag: string)
    requires offset + |tag| <= view.Length
    modifies view
    ensures view[..offset + |tag|] == old(view[..offset]) + CharCodes(tag)
    ensures forall k :: offset + |tag| <= k < view.Length ==> view[k] == old(view[k])
  {
    for i := 0 to |tag|
      invariant view[..offset + i] == old(view[..offset]) + CharCodes(tag)[..i]
      invariant forall k :: offset + i <= k < view.Length ==> view[k] == old(view[k])
    {
      view[offset + i] := tag[i] as int % 256;
    }
  }

  /** Bytes 0 .. 11 of the `pcmToWav` header: "RIFF", 36 + data length,
      "WAVE". */
  method PcmRiffHead(view: array<byte>, dataLength: nat)
    requires view.Length == 44
    modifies view
    ensures view[..12] == RiffHead(dataLength)
    ensures forall k :: 12 <= k < 44 ==> view[k] == old(view[k])
  {
    CharCodesExact("RIFF");
    CharCodesExact("WAVE");
    WriteString(view, 0, "RIFF");
    SetUint32At(view, 4, 36 + dataLength);
    WriteString(view, 8, "WAVE");
  }

  /** Bytes 12 .. 23: "fmt ", chunk size 16, format 1, one channel. */
  method PcmFmtFormat(view: array<byte>, numChannels: int)
    requires view.Length == 44
    modifies view
    ensures view[..24] == old(view[..12]) + FmtFormat(numChannels)
    ensures forall k :: 24 <= k < 44 ==> view[k] == old(view[k])
  {
    CharCodesExact("fmt ");
    WriteString(view, 12, "fmt ");
    SetUint32At(view, 16, 16);
    SetUint16At(view, 20, 1);
    SetUint16At(view, 22, numChannels);
  }

  /** Bytes 24 .. 35: sample rate, byte rate, block align, 16 bits. */
  method PcmFmtRates(view: array<byte>, sampleRate: int, byteRate: int, blockAlign: int)
    requires view.Length == 44
    modifies view
    ensures view[..36] == old(view[..24]) + (U32(sampleRate) + U32(byteRate) + U16(blockAlign) + U16(16))
    ensures forall k :: 36 <= k < 44 ==> view[k] == old(view[k])
  {
    SetUint32At(view, 24, sampleRate);
    SetUint32At(view, 28, byteRate);
    SetUint16At(view, 32, blockAlign);
    SetUint16At(view, 34, 16);
  }

  /** Bytes 36 .. 43: "data" and the data length. */
  method PcmDataHead(view: array<byte>, dataLength: nat)
    requires view.Length == 44
    modifies view
    ensures view[..] == old(view[..36]) + DataHead(dataLength)
  {
    CharCodesExact("data");
    WriteString(view, 36, "data");
    SetUint32At(view, 40, dataLength);
    assert view[..] == view[..44];
  }

  /** The header of `pcmToWav`: thirteen writes at fixed offsets into a fresh
      44-byte buffer, for one channel of 16-bit samples. */
  method PcmHeader(dataLength: nat, sampleRate: int) returns (view: array<byte>)
    ensures fresh(view)
    ensures view[..] == Header(1, sampleRate, dataLength)
  {
    var numChannels := 1;
    var byteRate := sampleRate * numChannels * 2;
    var blockAlign := numChannels * 2;
    view := new byte[44](_ => 0);
    PcmRiffHead(view, dataLength);
    PcmFmtFormat(view, numChannels);
    PcmFmtRates(view, sampleRate, byteRate, blockAlign);
    assert view[..36] == RiffHead(dataLength) + FmtChunk(1, sampleRate);
    PcmDataHead(view, dataLength);
  }

  /** `pcmToWav`: the header followed by the PCM bytes unchanged. */
  method PcmToWav(pcmData: seq<byte>, sampleRate: int) returns (wav: Blob)
    ensures wav == Header(1, sampleRate, |pcmData|) + pcmData
  {
    var view := PcmHeader(|pcmData|, sampleRate);
    wav := view[..] + pcmData;
  }

  /** The tail of `generateSpeech` once the response is in: an empty audio
      field is an error; otherwise the payload is decoded (`binary` is what
      `atob` returns for it) and wrapped at 24 kHz. */
  method SpeechToWav(audio: string, binary: string) returns (r: Option<Blob>)
    ensures r.Some? <==> audio != ""
    ensures r.Some? ==> r.value == Header(1, TtsSampleRate, |binary|) + CharCodes(binary)
  {
    if audio == "" {
      return None;
    }
    var pcmData := Decode(binary);
    var wav := PcmToWav(pcmData[..], TtsSampleRate);
    return Some(wav);
  }

  /** The mono header: tags at 0, 8, 12 and 36, RIFF size 36 + n, 1 channel,
      block align 2, byte rate = 2 * sample rate, format 1, 16 bits, data size
      n (each modulo its field width). */
  lemma MonoHeaderFields(sampleRate: int, n: nat)
    ensures var h := Header(1, sampleRate, n);
      && h[0..4] == Ascii("RIFF") && h[8..12] == Ascii("WAVE")
      && h[12..16] == Ascii("fmt ") && h[36..40] == Ascii("data")
      && ReadU32(h, 4) == (36 + n) % TWO32
      && ReadU32(h, 16) == 16 && ReadU16(h, 20) == 1
      && ReadU16(h, 22) == 1
      && ReadU32(h, 24) == sampleRate % TWO32
      && ReadU32(h, 28) == (sampleRate * 2) % TWO32
      && ReadU16(h, 32) == 2 && ReadU16(h, 34) == 16
      && ReadU32(h, 40) == n % TWO32
  {
    HeaderFields(1, sampleRate, n);
  }

  /** A `pcmToWav` file is 44 + n bytes, keeps the PCM untouched after the
      header, and reads back the mono header's fields. */
  lemma PcmLayout(pcmData: seq<byte>, sampleRate: int)
    ensures var w, n := Header(1, sampleRate, |pcmData|) + pcmData, |pcmData|;
      && |w| == 44 + n && w[44..] == pcmData && w[..44] == Header(1, sampleRate, n)
      && ReadU32(w, 4) == (36 + n) % TWO32
      && ReadU16(w, 22) == 1
      && ReadU32(w, 24) == sampleRate % TWO32
      && ReadU32(w, 28) == (sampleRate * 2) % TWO32
      && ReadU32(w, 40) == n % TWO32
  {
    HeaderThenData(1, sampleRate, |pcmData|, pcmData);
    assert (Header(1, sampleRate, |pcmData|) + pcmData)[44..] == pcmData;
  }

  /** Every speech clip declares 24000 Hz and a byte rate of 48000. */
  lemma SpeechRates(binary: string)
    ensures var w := Header(1, TtsSampleRate, |binary|) + CharCodes(binary);
      ReadU32(w, 24) == 24000 && ReadU32(w, 28) == 48000
  {
    PcmLayout(CharCodes(binary), TtsSampleRate);
  }

  /** For one channel at the same sample rate and the same data length, the
      header `pcmToWav` writes at fixed offsets is byte for byte the header
      `bufferToWav` writes with its cursor. */
  lemma MonoHeaderAgrees(b: AudioBuffer, pcmData: seq<byte>)
    requires b.Valid() && |b.channelData| == 1 && |pcmData| == 2 * b.length
    ensures (Header(1, b.sampleRate, |pcmData|) + pcmData)[..HeaderSize] == WavEncoder.WavFile(b)[..HeaderSize]
  {
    WavEncoder.WavFileHeader(b);
  }
}
