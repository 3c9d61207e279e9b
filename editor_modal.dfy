/** The sound editor dialog: a form initialised from the sound being edited,
    names derived from an uploaded file or a speech prompt, and the record
    handed back to the board on save. Recording, preview URLs and the speech
    request itself are outside the model; the speech outcome is a
    parameter. */
module EditorModal {
  import opened Types

  const COLORS := ["#ef4444", "#f97316", "#eab308", "#22c55e", "#06b6d4", "#3b82f6", "#a855f7", "#ec4899"]

  /** `file.name.split('.')[0]`: the name up to its first dot. */
  function UploadName(fileName: string): (r: string)
    ensures |r| <= |fileName| && r == fileName[..|r|]
    ensures '.' !in r
    ensures |r| < |fileName| ==> fileName[|r|] == '.'
  {
    if fileName == [] || fileName[0] == '.' then []
    else [fileName[0]] + UploadName(fileName[1..])
  }

  /** `prompt.substring(0, 15) + (prompt.length > 15 ? '...' : '')`. */
  function AiName(prompt: string): (r: string)
    ensures |prompt| <= 15 ==> r == prompt
    ensures |prompt| > 15 ==> |r| == 18 && r[..15] == prompt[..15] && r[15..] == "..."
  {
    if |prompt| > 15 then prompt[..15] + "..." else prompt
  }

  /** The characters `String.prototype.trim` removes: white space and line
      terminators of ECMAScript. */
  predicate IsJsSpace(c: char)
  {
    var u := c as int;
    u in {0x09, 0x0A, 0x0B, 0x0C, 0x0D, 0x20, 0xA0, 0x1680, 0x2028, 0x2029, 0x202F, 0x205F, 0x3000, 0xFEFF}
    || 0x2000 <= u <= 0x200A
  }

  /** `!s.trim()`: empty or white space only. */
  function IsBlank(s: string): (r: bool)
    ensures r <==> |s| == 0 || (IsJsSpace(s[0]) && IsBlank(s[1..]))
  {
    forall i :: 0 <= i < |s| ==> IsJsSpace(s[i])
  }

  /** A number in an `a || b` position: absent and 0 are both falsy. */
  function VolumeOr(v: Option<real>, d: real): (r: real)
    ensures v.None? ==> r == d
    ensures v == Some(0.0) ==> r == d
    ensures v.Some? && v.value != 0.0 ==> r == v.value
  {
    if v.Some? && v.value != 0.0 then v.value else d
  }

  /** What the speech helper ends in. */
  datatype Speech = Generated(audio: Blob) | NoAudio | Failed

  class Form {
    /** The record being edited (the `sound` prop). */
    var sound: PartialSound
    var activeTab: SourceKind
    var name: string
    var volume: real
    var loop: bool
    var color: string
    var blob: Option<Blob>
    var aiPrompt: string
    var isGenerating: bool
    var aiError: Option<string>

    /** The field values the form takes from `sound` (initial state and the
        reset when the dialog opens). */
    ghost predicate LoadedFrom(s: PartialSound)
      reads this
    {
      && name == StrOr(s.name, "")
      && volume == VolumeOr(s.volume, 1.0)
      && loop == (s.loop == Some(true))
      && color == StrOr(s.color, COLORS[4])
      && blob == s.blob
    }

    constructor(sound: PartialSound)
      ensures this.sound == sound && LoadedFrom(sound)
      ensures activeTab == Upload && aiPrompt == "" && !isGenerating && aiError.None?
    {
      this.sound := sound;
      activeTab := Upload;
      name := StrOr(sound.name, "");
      volume := VolumeOr(sound.volume, 1.0);
      loop := sound.loop == Some(true);
      color := StrOr(sound.color, COLORS[4]);
      blob := sound.blob;
      aiPrompt := "";
      isGenerating := false;
      aiError := None;
    }

    /** The dialog opens on `s`: the reset effect reloads the fields and
        clears the prompt and its error; the tab is kept. */
    method Open(s: PartialSound)
      modifies this
      ensures sound == s && LoadedFrom(s) && aiPrompt == "" && aiError.None?
      ensures activeTab == old(activeTab) && isGenerating == old(isGenerating)
    {
      sound := s;
      name := StrOr(s.name, "");
      volume := VolumeOr(s.volume, 1.0);
      loop := s.loop == Some(true);
      color := StrOr(s.color, COLORS[4]);
      blob := s.blob;
      aiPrompt := "";
      aiError := None;
    }

    /** `handleFileChange`: a chosen file becomes the audio, and names the
        sound when the name is empty. */
    method FileChange(file: Option<(string, Blob)>)
      modifies this
      ensures file.Some? ==> blob == Some(file.value.1)
      ensures file.Some? && old(name) == "" ==> name == UploadName(file.value.0)
      ensures file.None? || old(name) != "" ==> name == old(name)
      ensures file.None? ==> blob == old(blob)
      ensures sound == old(sound) && activeTab == old(activeTab) && volume == old(volume)
      ensures loop == old(loop) && color == old(color) && aiPrompt == old(aiPrompt)
      ensures isGenerating == old(isGenerating) && aiError == old(aiError)
    {
      if file.Some? {
        blob := Some(file.value.1);
        if name == "" {
          name := UploadName(file.value.0);
        }
      }
    }

    /** `handleGenerateAI` with the speech outcome as a parameter. */
    method GenerateAI(outcome: Speech)
      modifies this
      ensures IsBlank(old(aiPrompt)) ==>
        blob == old(blob) && name == old(name) && aiError == old(aiError) && isGenerating == old(isGenerating)
      ensures !IsBlank(old(aiPrompt)) ==> !isGenerating
      ensures !IsBlank(old(aiPrompt)) && outcome.Generated? ==>
        blob == Some(outcome.audio) && aiError.None? &&
        name == (if old(name) == "" then AiName(old(aiPrompt)) else old(name))
      ensures !IsBlank(old(aiPrompt)) && outcome.NoAudio? ==> blob == old(blob) && name == old(name) && aiError.None?
      ensures !IsBlank(old(aiPrompt)) && outcome.Failed? ==>
        blob == old(blob) && name == old(name) && aiError == Some("Failed to generate speech. Check API Key.")
      ensures sound == old(sound) && activeTab == old(activeTab) && volume == old(volume)
      ensures loop == old(loop) && color == old(color) && aiPrompt == old(aiPrompt)
    {
      if IsBlank(aiPrompt) {
        return;
      }
      isGenerating := true;
      aiError := None;
      match outcome {
        case Generated(audio) =>
          blob := Some(audio);
          if name == "" {
            name := AiName(aiPrompt);
          }
        case NoAudio =>
        case Failed =>
          aiError := Some("Failed to generate speech. Check API Key.");
      }
      isGenerating := false;
    }

    /** `handleSave`: nothing without audio; otherwise the incoming record
        with the form's fields, the new audio or else the old one, and the
        active tab as its source. */
    method Save() returns (r: Option<PartialSound>)
      ensures r.None? <==> blob.None? && sound.blob.None?
      ensures r.Some? ==>
        && r.value.id == sound.id && r.value.icon == sound.icon
        && r.value.shortcut == sound.shortcut && r.value.createdBy == sound.createdBy
        && r.value.name == Some(if name != "" then name else "Untitled")
        && r.value.volume == Some(volume) && r.value.loop == Some(loop) && r.value.color == Some(color)
        && r.value.blob == (if blob.Some? then blob else sound.blob) && r.value.blob.Some?
        && r.value.source == Some(activeTab)
    {
      if blob.None? && sound.blob.None? {
        return None;
      }
      r := Some(sound.(name := Some(if name != "" then name else "Untitled"),
                       volume := Some(volume),
                       loop := Some(loop),
                       color := Some(color),
                       blob := if blob.Some? then blob else sound.blob,
                       source := Some(activeTab)));
    }
  }

  /** The name up to the first dot: a stem without dots is the whole name,
      and whatever follows the first dot is dropped. */
  lemma {:induction false} UploadNameOfStem(stem: string, rest: string)
    requires '.' !in stem
    ensures UploadName(stem) == stem
    ensures UploadName(stem + "." + rest) == stem
    decreases |stem|
  {
    if stem == [] {
      assert (stem + "." + rest)[0] == '.';
    } else {
      assert stem[0] in stem;
      UploadNameOfStem(stem[1..], rest);
      assert (stem + "." + rest)[1..] == stem[1..] + "." + rest;
      assert stem == [stem[0]] + stem[1..];
    }
  }

  /** The form opens on a saved volume of 0 as 1.0, while the board's own
      defaulting keeps 0: the two defaults differ. */
  lemma VolumeDefaults()
    ensures VolumeOr(Some(0.0), 1.0) == 1.0 && VolumeOr(None, 1.0) == 1.0
    ensures VolumeOr(Some(0.5), 1.0) == 0.5
    ensures COLORS[4] == "#06b6d4"
  {
  }

  /** A blank prompt: only white space, tabs or line breaks. */
  lemma BlankPrompts()
    ensures IsBlank("") && IsBlank(" \t\n") && !IsBlank(" hi ")
  {
    assert IsJsSpace(' ') && IsJsSpace('\t') && IsJsSpace('\n');
    assert " \t\n"[0] == ' ' && " \t\n"[1] == '\t' && " \t\n"[2] == '\n';
    assert " hi "[1] == 'h' && !IsJsSpace('h');
  }
}
