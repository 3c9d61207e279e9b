/** The clip editor: at most one selected region on the waveform, and
    extraction of the selected span of the loaded file as a new WAV clip on
    a board. The waveform widget is reduced to its region list and the
    duration it reports; decoding the file is a parameter that may fail. */
module AudioEditor {
  import opened Types
  import opened WavFormat
  import WavEncoder
  import Db

  /** A selection on the waveform, in seconds. */
  datatype Region = Region(id: string, start: real, end: real)

  /** The regions whose id is `id`, in order: a region is kept exactly when
      it is in the list and carries the id. */
  function KeepId(rs: seq<Region>, id: string): (r: seq<Region>)
    ensures |r| <= |rs|
    ensures forall x {:trigger x in r} :: x in r <==> x in rs && x.id == id
  {
    if rs == [] then []
    else
      assert rs == [rs[0]] + rs[1..];
      (if rs[0].id == id then [rs[0]] else []) + KeepId(rs[1..], id)
  }

  /** `Math.floor(t * sampleRate)`: the frame in which time `t` falls. */
  function FrameAt(t: real, sampleRate: nat): (r: int)
    ensures r as real <= t * sampleRate as real < r as real + 1.0
    ensures t >= 0.0 ==> r >= 0
  {
    (t * sampleRate as real).Floor
  }

  /** The span to extract: the first region, or the whole file. */
  function Selection(regions: seq<Region>, duration: real): (span: (real, real))
    ensures regions == [] ==> span == (0.0, duration)
    ensures regions != [] ==> span == (regions[0].start, regions[0].end)
  {
    if regions == [] then (0.0, duration) else (regions[0].start, regions[0].end)
  }

  /** `frameCount` frames of every channel from `startFrame` on, at the same
      sample rate. */
  function Slice(b: AudioBuffer, startFrame: nat, frameCount: nat): (r: AudioBuffer)
    requires b.Valid() && startFrame + frameCount <= b.length
    ensures r.Valid() && r.sampleRate == b.sampleRate && r.length == frameCount
    ensures |r.channelData| == |b.channelData|
    ensures forall i, j :: 0 <= i < |r.channelData| && 0 <= j < frameCount ==>
      r.channelData[i][j] == b.channelData[i][startFrame + j]
  {
    AudioBuffer(b.sampleRate, frameCount,
      seq(|b.channelData|, i requires 0 <= i < |b.channelData| =>
        seq(frameCount, j requires 0 <= j < frameCount => b.channelData[i][startFrame + j])))
  }

  /** The clip that extraction adds to a board: an upload named after the
      file, holding the WAV, green, at full volume, not looping, with an
      empty shortcut and no icon or creator. */
  function CutClip(id: string, fileName: string, wav: Blob): (r: Sound)
    ensures r.id == id && r.source == Upload && r.blob == Some(wav)
    ensures |r.name| == 6 + |fileName| && r.name[..6] == "Cut - " && r.name[6..] == fileName
    ensures r.color == "#10b981" && r.icon.None? && r.createdBy.None?
    ensures r.volume == 1.0 && !r.loop && r.shortcut == Some("")
  {
    Sound(id, "Cut - " + fileName, Upload, Some(wav), "#10b981", None, 1.0, false, Some(""), None)
  }

  /** Which sample loop encodes the clip. `AsWritten` is the editor's own
      `bufferToWav`, whose loop starts at frame 44; `Corrected` starts it at
      frame 0. */
  datatype Encoder = AsWritten | Corrected

  function Encode(e: Encoder, b: AudioBuffer): Blob
    requires b.Valid()
  {
    if e.AsWritten? then WavEncoder.WavFileAsWritten(b) else WavEncoder.WavFile(b)
  }

  /** What extraction ends in. Every case but `Saved` leaves everything as it
      was. `NotLoaded` is the early return and `DecodeFailed` a rejected
      decode. `EmptySpan` is a `createBuffer` that throws. `OutsideAudio` is
      a modelling choice: the source reads `undefined` past the decoded
      frames and writes those samples as 0; the model refuses the span
      instead. `NoBoard` is the silent fall-through when the selected board
      is not found. */
  datatype ExtractOutcome =
    | NotLoaded
    | DecodeFailed
    | EmptySpan        // `createBuffer` throws for no frames or no channels
    | OutsideAudio     // the span reaches past the decoded frames
    | NoBoard
    | Saved(board: SoundBoard, sent: Db.BoardMeta)

  /** The whole of `handleExtract`, as a function of the editor's state, the
      decoder's answer, the new clip's id and the encoder. The updated board
      is a local copy: it is sent to the store, which keeps its metadata
      only. */
  function Extraction(ready: bool, loadedFile: Option<string>, regions: seq<Region>, duration: real,
                      decoded: Option<AudioBuffer>, boards: seq<SoundBoard>, selectedBoardId: string,
                      newId: string, encoder: Encoder): ExtractOutcome
    requires decoded.Some? ==> decoded.value.Valid()
  {
    if !ready || loadedFile.None? then NotLoaded
    else if decoded.None? then DecodeFailed
    else
      var b := decoded.value;
      var span := Selection(regions, duration);
      var startFrame, endFrame := FrameAt(span.0, b.sampleRate), FrameAt(span.1, b.sampleRate);
      var frameCount := endFrame - startFrame;
      if frameCount <= 0 || |b.channelData| == 0 then EmptySpan
      else if startFrame < 0 || endFrame > b.length then OutsideAudio
      else
        var wav := Encode(encoder, Slice(b, startFrame, frameCount));
        var board := FindBoard(boards, selectedBoardId);
        if board.None? then NoBoard
        else
          var updated := board.value.(sounds := board.value.sounds + [CutClip(newId, loadedFile.value, wav)]);
          Saved(updated, Db.BoardPayload(updated))
  }

  /** The copy loop of `handleExtract` into a new channels-by-frames buffer. */
  method SliceBuffer(audioBuffer: AudioBuffer, startFrame: nat, frameCount: nat) returns (newBuffer: AudioBuffer)
    requires audioBuffer.Valid() && startFrame + frameCount <= audioBuffer.length
    ensures newBuffer == Slice(audioBuffer, startFrame, frameCount)
  {
    var numberOfChannels := |audioBuffer.channelData|;
    var newData := new real[numberOfChannels, frameCount]((_, _) => 0.0);
    for i := 0 to numberOfChannels
      invariant forall i', j :: 0 <= i' < i && 0 <= j < frameCount ==>
        newData[i', j] == audioBuffer.channelData[i'][startFrame + j]
    {
      var channelData := audioBuffer.channelData[i];
      for j := 0 to frameCount
        invariant forall i', j' :: 0 <= i' < i && 0 <= j' < frameCount ==>
          newData[i', j'] == audioBuffer.channelData[i'][startFrame + j']
        invariant forall j' :: 0 <= j' < j ==> newData[i, j'] == channelData[startFrame + j']
      {
        newData[i, j] := channelData[startFrame + j];
      }
    }
    newBuffer := AudioBuffer(audioBuffer.sampleRate, frameCount,
      seq(numberOfChannels, i requires 0 <= i < numberOfChannels reads newData =>
        seq(frameCount, j requires 0 <= j < frameCount reads newData => newData[i, j])));
    ghost var spec := Slice(audioBuffer, startFrame, frameCount);
    forall i | 0 <= i < numberOfChannels
      ensures newBuffer.channelData[i] == spec.channelData[i]
    {
    }
  }

  class Editor {
    /** The waveform widget and its regions plugin exist. */
    var ready: bool
    /** The plugin's regions, oldest first. */
    var regions: seq<Region>
    /** What the widget reports as the loaded file's duration, in seconds. */
    var duration: real
    /** The name of the loaded file. */
    var loadedFile: Option<string>
    var boards: seq<SoundBoard>
    var selectedBoardId: string

    /** Mounting: the widget is created when its container exists. */
    constructor(hasContainer: bool)
      ensures ready == hasContainer && regions == [] && duration == 0.0
      ensures loadedFile == None && boards == [] && selectedBoardId == ""
    {
      ready := hasContainer;
      regions := [];
      duration := 0.0;
      loadedFile := None;
      boards := [];
      selectedBoardId := "";
    }

    /** The boards loaded on mount; the first one is selected. */
    method LoadBoards(loaded: seq<SoundBoard>)
      modifies this
      ensures boards == loaded
      ensures selectedBoardId == if loaded != [] then loaded[0].id else old(selectedBoardId)
      ensures ready == old(ready) && regions == old(regions) && duration == old(duration)
      ensures loadedFile == old(loadedFile)
    {
      boards := loaded;
      if |loaded| > 0 {
        selectedBoardId := loaded[0].id;
      }
    }

    /** `handleFileUpload`: a chosen file is kept and shown, and the widget
        then reports its duration. */
    method FileUpload(file: Option<string>, fileDuration: real)
      modifies this
      ensures file.Some? && old(ready) ==> loadedFile == file && duration == fileDuration
      ensures !(file.Some? && old(ready)) ==> loadedFile == old(loadedFile) && duration == old(duration)
      ensures ready == old(ready) && regions == old(regions) && boards == old(boards)
      ensures selectedBoardId == old(selectedBoardId)
    {
      if file.Some? && ready {
        loadedFile := file;
        duration := fileDuration;
      }
    }

    /** A region drawn by dragging: the plugin adds it, then the
        `region-created` handler removes every region with another id. */
    method CreateRegion(region: Region)
      modifies this
      ensures regions == KeepId(old(regions) + [region], region.id)
      ensures (forall r :: r in old(regions) ==> r.id != region.id) ==> regions == [region]
      ensures ready == old(ready) && duration == old(duration) && loadedFile == old(loadedFile)
      ensures boards == old(boards) && selectedBoardId == old(selectedBoardId)
    {
      regions := regions + [region];
      var all := regions;
      var at := 0;
      for k := 0 to |all|
        invariant at == |KeepId(all[..k], region.id)|
        invariant regions == KeepId(all[..k], region.id) + all[k..]
        invariant ready == old(ready) && duration == old(duration) && loadedFile == old(loadedFile)
        invariant boards == old(boards) && selectedBoardId == old(selectedBoardId)
      {
        RemoveStep(all, k, region.id);
        if all[k].id != region.id {
          regions := regions[..at] + regions[at + 1..];
        } else {
          at := at + 1;
        }
      }
      assert all[..|all|] == all;
      if forall r :: r in old(regions) ==> r.id != region.id {
        KeepIdOnly(old(regions), region);
      }
    }

    /** `handleAddRegion`: clear every region and select the middle half. */
    method AddRegion(id: string)
      modifies this
      ensures old(ready) ==> regions == [Region(id, duration * 0.25, duration * 0.75)]
      ensures !old(ready) ==> regions == old(regions)
      ensures ready == old(ready) && duration == old(duration) && loadedFile == old(loadedFile)
      ensures boards == old(boards) && selectedBoardId == old(selectedBoardId)
    {
      if !ready {
        return;
      }
      regions := [];
      regions := regions + [Region(id, duration * 0.25, duration * 0.75)];
    }

    /** `handleExtract`, with the decoder's answer, the new clip's id and the
        encoder as parameters; the program runs it with `AsWritten`. The
        editor's own state does not change: the updated board is only sent to
        the store. */
    method Extract(decoded: Option<AudioBuffer>, newId: string, encoder: Encoder) returns (o: ExtractOutcome)
      requires decoded.Some? ==> decoded.value.Valid()
      ensures o == Extraction(ready, loadedFile, regions, duration, decoded, boards, selectedBoardId, newId, encoder)
    {
      if !ready || loadedFile.None? {
        return NotLoaded;
      }
      var span := Selection(regions, duration);
      var start, end := span.0, span.1;
      if decoded.None? {
        return DecodeFailed;
      }
      var audioBuffer := decoded.value;
      var sampleRate := audioBuffer.sampleRate;
      var startFrame := FrameAt(start, sampleRate);
      var endFrame := FrameAt(end, sampleRate);
      var frameCount := endFrame - startFrame;
      if frameCount <= 0 || |audioBuffer.channelData| == 0 {
        return EmptySpan;
      }
      if startFrame < 0 || endFrame > audioBuffer.length {
        return OutsideAudio;
      }
      var newBuffer := SliceBuffer(audioBuffer, startFrame, frameCount);
      var wavBlob;
      if encoder.AsWritten? {
        wavBlob := WavEncoder.BufferToWavAsWritten(newBuffer);
      } else {
        wavBlob := WavEncoder.BufferToWav(newBuffer);
      }
      var board := FindBoard(boards, selectedBoardId);
      if board.Some? {
        var newSound := CutClip(newId, loadedFile.value, wavBlob);
        var updatedBoard := board.value.(sounds := board.value.sounds + [newSound]);
        return Saved(updatedBoard, Db.BoardPayload(updatedBoard));
      }
      return NoBoard;
    }
  }

  lemma {:induction false} KeepIdSnoc(rs: seq<Region>, x: Region, id: string)
    ensures KeepId(rs + [x], id) == KeepId(rs, id) + (if x.id == id then [x] else [])
    decreases |rs|
  {
    if rs == [] {
      assert rs + [x] == [x];
      assert [x][1..] == [];
    } else {
      var t := rs + [x];
      assert t[0] == rs[0] && t[1..] == rs[1..] + [x];
      KeepIdSnoc(rs[1..], x, id);
      var head := if rs[0].id == id then [rs[0]] else [];
      assert KeepId(t, id) == head + KeepId(rs[1..] + [x], id);
      assert KeepId(rs, id) == head + KeepId(rs[1..], id);
    }
  }

  /** One step of the `forEach`: the region at `k` is removed from the live
      list unless it has the id. */
  lemma RemoveStep(all: seq<Region>, k: nat, id: string)
    requires k < |all|
    ensures var kept, live := KeepId(all[..k], id), KeepId(all[..k], id) + all[k..];
      && |kept| < |live|
      && (all[k].id != id ==>
           live[..|kept|] + live[|kept| + 1..] == KeepId(all[..k + 1], id) + all[k + 1..] &&
           |KeepId(all[..k + 1], id)| == |kept|)
      && (all[k].id == id ==>
           live == KeepId(all[..k + 1], id) + all[k + 1..] &&
           |KeepId(all[..k + 1], id)| == |kept| + 1)
  {
    var kept := KeepId(all[..k], id);
    KeepIdSnoc(all[..k], all[k], id);
    assert all[..k + 1] == all[..k] + [all[k]];
    assert all[k..] == [all[k]] + all[k + 1..];
  }

  /** A new region whose id no earlier region has is the only one kept. */
  lemma {:induction false} KeepIdOnly(rs: seq<Region>, x: Region)
    requires forall r :: r in rs ==> r.id != x.id
    ensures KeepId(rs + [x], x.id) == [x]
    decreases |rs|
  {
    if rs == [] {
      assert ([] + [x])[1..] == [];
    } else {
      assert rs[0] in rs;
      assert (rs + [x])[1..] == rs[1..] + [x];
      KeepIdOnly(rs[1..], x);
    }
  }

  /** A saved extraction appends exactly one clip to the selected board,
      named after the file and holding the WAV of the selected frames, and
      leaves the board's other sounds and fields as they were. */
  lemma {:induction false} ExtractAppendsClip(ready: bool, loadedFile: Option<string>, regions: seq<Region>,
      duration: real, decoded: Option<AudioBuffer>, boards: seq<SoundBoard>, selectedBoardId: string, newId: string,
      encoder: Encoder)
    requires decoded.Some? ==> decoded.value.Valid()
    ensures var o := Extraction(ready, loadedFile, regions, duration, decoded, boards, selectedBoardId, newId, encoder);
      o.Saved? ==>
        && ready && loadedFile.Some? && decoded.Some?
        && var b, span := decoded.value, Selection(regions, duration);
        && var startFrame, endFrame := FrameAt(span.0, b.sampleRate), FrameAt(span.1, b.sampleRate);
        && 0 <= startFrame < endFrame <= b.length
        && (exists k :: 0 <= k < |boards| && boards[k].id == selectedBoardId &&
              o.board == boards[k].(sounds := boards[k].sounds + [o.board.sounds[|o.board.sounds| - 1]]))
        && var clip := o.board.sounds[|o.board.sounds| - 1];
        && clip.name == "Cut - " + loadedFile.value && clip.id == newId
        && clip.source == Upload && clip.volume == 1.0 && !clip.loop
        && clip.blob == Some(Encode(encoder, Slice(b, startFrame, endFrame - startFrame)))
        && clip.color == "#10b981" && clip.shortcut == Some("")
        && clip == CutClip(newId, loadedFile.value, clip.blob.value)
  {
  }

  /** The store receives the selected board's metadata only: the request is
      the same as for the board before the clip was added, so the clip is
      not persisted by this call. */
  lemma ExtractSendsMetadataOnly(ready: bool, loadedFile: Option<string>, regions: seq<Region>,
      duration: real, decoded: Option<AudioBuffer>, boards: seq<SoundBoard>, selectedBoardId: string, newId: string,
      encoder: Encoder)
    requires decoded.Some? ==> decoded.value.Valid()
    ensures var o := Extraction(ready, loadedFile, regions, duration, decoded, boards, selectedBoardId, newId, encoder);
      o.Saved? ==> (FindBoard(boards, selectedBoardId).Some? &&
                    o.sent == Db.BoardPayload(FindBoard(boards, selectedBoardId).value))
  {
    var o := Extraction(ready, loadedFile, regions, duration, decoded, boards, selectedBoardId, newId, encoder);
    if o.Saved? {
      var board := FindBoard(boards, selectedBoardId).value;
      Db.PayloadIgnoresSounds(board, o.board.sounds);
    }
  }

  /** Every sample of the extracted clip is the quantised source sample it
      was cut from: channel c of clip frame p is source frame startFrame + p,
      stored at byte 44 + 2 * (p * channels + c). */
  lemma ExtractedSample(b: AudioBuffer, startFrame: nat, frameCount: nat, p: nat, c: nat)
    requires b.Valid() && startFrame + frameCount <= b.length
    requires p < frameCount && c < |b.channelData|
    ensures var w, n := WavEncoder.WavFile(Slice(b, startFrame, frameCount)), |b.channelData|;
      && 44 + 2 * (p * n + c) + 2 <= |w|
      && ReadI16(w, 44 + 2 * (p * n + c)) == WavEncoder.Quantise(b.channelData[c][startFrame + p])
  {
    WavEncoder.WavFileSampleAt(Slice(b, startFrame, frameCount), p, c);
  }

  /** With no region, the extracted span runs from frame 0 to the frame at
      the reported duration. */
  lemma WholeFileByDefault(duration: real, sampleRate: nat)
    ensures var span := Selection([], duration);
      FrameAt(span.0, sampleRate) == 0 && FrameAt(span.1, sampleRate) == FrameAt(duration, sampleRate)
  {
  }

  /** A four-frame mono file at 4 Hz cut from 0.25 s to 0.75 s keeps frames
      1 and 2: with frames [1, -1, 0, 0.5] the clip holds -32768 and 0. */
  lemma CutExample(b: AudioBuffer)
    requires b.Valid() && b.sampleRate == 4 && b.length == 4 && |b.channelData| == 1
    requires b.channelData[0][1] == -1.0 && b.channelData[0][2] == 0.0
    ensures var w := WavEncoder.WavFile(Slice(b, FrameAt(0.25, 4), FrameAt(0.75, 4) - FrameAt(0.25, 4)));
      |w| == 48 && ReadI16(w, 44) == -0x8000 && ReadI16(w, 46) == 0
  {
    assert FrameAt(0.25, 4) == 1 && FrameAt(0.75, 4) == 3;
    ExtractedSample(b, 1, 2, 0, 0);
    ExtractedSample(b, 1, 2, 1, 0);
    WavEncoder.QuantiseValues(0.0);
    WavEncoder.WavFileHeader(Slice(b, 1, 2));
  }

  /** With the editor's own encoder, the word for clip frame p holds source
      frame startFrame + p + 44: the clip is cut 44 frames late. */
  lemma ExtractedSampleAsWritten(b: AudioBuffer, startFrame: nat, frameCount: nat, p: nat, c: nat)
    requires b.Valid() && startFrame + frameCount <= b.length
    requires p + 44 < frameCount && c < |b.channelData|
    ensures var w, n := WavEncoder.WavFileAsWritten(Slice(b, startFrame, frameCount)), |b.channelData|;
      && 44 + 2 * (p * n + c) + 2 <= |w|
      && ReadI16(w, 44 + 2 * (p * n + c)) == WavEncoder.Quantise(b.channelData[c][startFrame + p + 44])
  {
    WavEncoder.AsWrittenSampleAt(Slice(b, startFrame, frameCount), p, c);
  }

  /** With the editor's own encoder, a clip of at most 44 frames is saved as
      silence: every byte after the header is 0. */
  lemma ExtractShortClipSilent(b: AudioBuffer, startFrame: nat, frameCount: nat)
    requires b.Valid() && startFrame + frameCount <= b.length && frameCount <= 44
    ensures var w, n := WavEncoder.WavFileAsWritten(Slice(b, startFrame, frameCount)), |b.channelData|;
      && |w| == 44 + 2 * n * frameCount
      && forall k :: 44 <= k < |w| ==> w[k] == 0
  {
    var r := Slice(b, startFrame, frameCount);
    var n := |b.channelData|;
    WavEncoder.FramesLength(r, 44, frameCount);
    assert WavEncoder.Frames(r, 44, frameCount) == [];
    var z := WavEncoder.Zeros(2 * n * frameCount);
    assert WavEncoder.WavFileAsWritten(r) == Header(n, r.sampleRate, 2 * n * frameCount) + [] + z;
  }

  /** The cut of `CutExample` as the program saves it: both data words are
      0, where the corrected encoder gives -32768 and 0. */
  lemma CutExampleAsWritten(b: AudioBuffer)
    requires b.Valid() && b.sampleRate == 4 && b.length == 4 && |b.channelData| == 1
    requires b.channelData[0][1] == -1.0 && b.channelData[0][2] == 0.0
    ensures var w := WavEncoder.WavFileAsWritten(Slice(b, FrameAt(0.25, 4), FrameAt(0.75, 4) - FrameAt(0.25, 4)));
      |w| == 48 && ReadI16(w, 44) == 0 && ReadI16(w, 46) == 0
  {
    assert FrameAt(0.25, 4) == 1 && FrameAt(0.75, 4) == 3;
    ExtractShortClipSilent(b, 1, 2);
  }
}
