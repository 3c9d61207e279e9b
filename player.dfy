/** The single-voice player shared by every pad: one current sound, one
    source slot (`sourceRef`) and one gain slot (`gainNodeRef`). Web Audio is
    reduced to what the player can observe: which sources are sounding, the
    live source's loop flag and the live gain's value. Decoding a clip is a
    parameter that may fail. */
module Player {
  import opened Types

  /** A started buffer source: a fresh id, the sound it plays and its live
      `loop` flag. */
  datatype Voice = Voice(id: nat, soundId: string, loop: bool)

  datatype PlayerState = PlayerState(
    hasContext: bool,          // the AudioContext has been created
    currentSound: Option<Sound>,
    isPlaying: bool,
    volume: real,
    isLooping: bool,
    progress: real,
    source: Option<Voice>,     // sourceRef.current
    gain: Option<real>,        // gainNodeRef.current.gain.value
    sounding: set<nat>,        // voices started and not yet stopped or ended
    nextVoice: nat)            // ids below this one have been handed out

  /** The id of the voice in the source slot, if any. */
  function SlotIds(source: Option<Voice>): set<nat>
  {
    if source.Some? then {source.value.id} else {}
  }

  /** What the player keeps true between events: only the voice in the source
      slot can be sounding (at most one voice), `isPlaying` says exactly that
      it is, the slot's loop flag follows `isLooping`, the gain node follows
      the volume, the slot plays the current sound, and voice ids are fresh. */
  ghost predicate Valid(s: PlayerState)
  {
    && s.sounding <= SlotIds(s.source)
    && (s.isPlaying <==> s.source.Some? && s.source.value.id in s.sounding)
    && (s.source.Some? ==> s.source.value.loop == s.isLooping)
    && (s.gain.Some? ==> s.gain.value == s.volume)
    && (s.source.Some? ==> s.currentSound.Some? && s.source.value.soundId == s.currentSound.value.id)
    && (s.source.Some? ==> s.source.value.id < s.nextVoice)
    && (!s.isPlaying ==> s.progress == 0.0)
  }

  /** The provider as mounted, before its AudioContext exists. */
  const Initial := PlayerState(false, None, false, 1.0, false, 0.0, None, None, {}, 0)

  /** The mount effect creates the AudioContext. */
  function AfterMount(s: PlayerState): PlayerState
  {
    s.(hasContext := true)
  }

  /** `stopCurrent`: stop and release the source, clear playing and progress. */
  function AfterStopCurrent(s: PlayerState): PlayerState
  {
    s.(source := None, sounding := s.sounding - SlotIds(s.source), isPlaying := false, progress := 0.0)
  }

  /** Does `play(sound)` take the toggle-off branch? */
  predicate TogglesOff(s: PlayerState, sound: Sound)
  {
    s.currentSound.Some? && s.currentSound.value.id == sound.id && s.isPlaying
  }

  /** `play(sound)`: `decodes` is whether `decodeAudioData` succeeds; when it
      fails the promise rejects after the sound has become current. */
  function AfterPlay(s: PlayerState, sound: Sound, decodes: bool): PlayerState
  {
    if !s.hasContext then s
    else if TogglesOff(s, sound) then AfterStopCurrent(s)
    else
      var t := AfterStopCurrent(s).(currentSound := Some(sound), isLooping := sound.loop);
      if sound.blob.None? || !decodes then t
      else
        var v := Voice(t.nextVoice, sound.id, sound.loop);
        t.(source := Some(v), gain := Some(t.volume), sounding := t.sounding + {v.id},
           nextVoice := t.nextVoice + 1, isPlaying := true)
  }

  function AfterPause(s: PlayerState): PlayerState
  {
    AfterStopCurrent(s)
  }

  function AfterStop(s: PlayerState): PlayerState
  {
    AfterStopCurrent(s).(currentSound := None)
  }

  /** `toggleLoop` followed by the loop effect on the live source. */
  function AfterToggleLoop(s: PlayerState): PlayerState
  {
    var looping := !s.isLooping;
    s.(isLooping := looping,
       source := if s.source.Some? then Some(s.source.value.(loop := looping)) else None)
  }

  /** `setVolume` followed by the volume effect on the live gain node. */
  function AfterSetVolume(s: PlayerState, v: real): PlayerState
  {
    s.(volume := v, gain := if s.gain.Some? then Some(v) else None)
  }

  /** The live source reaches its end. A looping source does not end, and an
      `ended` event only clears the state when the source's flag is off. */
  function AfterEnded(s: PlayerState): PlayerState
  {
    if s.source.Some? && s.source.value.id in s.sounding && !s.source.value.loop then
      s.(sounding := s.sounding - {s.source.value.id}, isPlaying := false, progress := 0.0)
    else s
  }

  // ---------------------------------------------------------------------
  // Properties

  lemma InitialValid()
    ensures Valid(Initial) && Valid(AfterMount(Initial))
  {
  }

  /** Every event keeps the invariant. */
  lemma EventsPreserveValid(s: PlayerState, sound: Sound, decodes: bool, v: real)
    requires Valid(s)
    ensures Valid(AfterMount(s)) && Valid(AfterStopCurrent(s)) && Valid(AfterPlay(s, sound, decodes))
    ensures Valid(AfterPause(s)) && Valid(AfterStop(s)) && Valid(AfterToggleLoop(s))
    ensures Valid(AfterSetVolume(s, v)) && Valid(AfterEnded(s))
  {
  }

  /** Clicking the sound that is playing toggles it off: the voice is
      released, nothing sounds, and the sound stays current. */
  lemma PlaySameTogglesOff(s: PlayerState, sound: Sound, decodes: bool)
    requires Valid(s) && s.hasContext && TogglesOff(s, sound)
    ensures var t := AfterPlay(s, sound, decodes);
      && t.source.None? && t.sounding == {} && !t.isPlaying && t.progress == 0.0
      && t.currentSound == s.currentSound && t.isLooping == s.isLooping
  {
  }

  /** Any other `play` tears down the old voice first: afterwards the only
      voice that can be sounding is a brand-new one, for this sound, looping
      as the sound says; the sound is current either way. */
  lemma PlayIsExclusive(s: PlayerState, sound: Sound, decodes: bool)
    requires Valid(s) && s.hasContext && !TogglesOff(s, sound)
    ensures var t := AfterPlay(s, sound, decodes);
      && t.currentSound == Some(sound) && t.isLooping == sound.loop
      && (forall id :: id in t.sounding ==> id >= s.nextVoice)
      && |t.sounding| <= 1
      && (t.source.Some? ==> t.source.value.loop == sound.loop && t.source.value.soundId == sound.id)
  {
    var t := AfterPlay(s, sound, decodes);
    assert t.sounding <= SlotIds(t.source);
    if t.source.Some? {
      assert SlotIds(t.source) == {t.source.value.id};
    }
  }

  /** A sound without audio, or whose audio does not decode, becomes current
      but nothing is started and nothing plays. */
  lemma PlayWithoutAudio(s: PlayerState, sound: Sound, decodes: bool)
    requires Valid(s) && s.hasContext && !TogglesOff(s, sound)
    requires sound.blob.None? || !decodes
    ensures var t := AfterPlay(s, sound, decodes);
      t.currentSound == Some(sound) && t.source.None? && t.sounding == {} && !t.isPlaying
  {
  }

  /** A successful `play` leaves one live voice, playing at the player's
      volume. */
  lemma PlayStarts(s: PlayerState, sound: Sound)
    requires Valid(s) && s.hasContext && !TogglesOff(s, sound) && sound.blob.Some?
    ensures var t := AfterPlay(s, sound, true);
      && t.isPlaying && t.source.Some? && t.sounding == {t.source.value.id}
      && t.gain == Some(s.volume) && t.volume == s.volume
  {
  }

  /** Before the AudioContext exists, `play` does nothing. */
  lemma PlayNeedsContext(s: PlayerState, sound: Sound, decodes: bool)
    requires !s.hasContext
    ensures AfterPlay(s, sound, decodes) == s
  {
  }

  /** `stop` and `pause` silence everything; only `stop` forgets the sound. */
  lemma StopAndPause(s: PlayerState)
    requires Valid(s)
    ensures var t := AfterStop(s);
      t.source.None? && t.sounding == {} && !t.isPlaying && t.progress == 0.0 && t.currentSound.None?
    ensures var t := AfterPause(s);
      t.source.None? && t.sounding == {} && !t.isPlaying && t.progress == 0.0
      && t.currentSound == s.currentSound
  {
  }

  /** Toggling the loop twice restores the state, live source included. */
  lemma ToggleLoopTwice(s: PlayerState)
    requires Valid(s)
    ensures AfterToggleLoop(AfterToggleLoop(s)) == s
  {
    if s.source.Some? {
      assert s.source.value.(loop := s.isLooping) == s.source.value;
    }
  }

  /** Loop and volume changes reach the live nodes only: what is playing and
      which sound is current stay as they were. */
  lemma SettingsLeavePlayback(s: PlayerState, v: real)
    requires Valid(s)
    ensures var t := AfterToggleLoop(s);
      && t.isPlaying == s.isPlaying && t.currentSound == s.currentSound && t.sounding == s.sounding
      && t.isLooping != s.isLooping && (t.source.Some? ==> t.source.value.loop == t.isLooping)
    ensures var t := AfterSetVolume(s, v);
      && t.isPlaying == s.isPlaying && t.currentSound == s.currentSound && t.sounding == s.sounding
      && t.volume == v && (t.gain.Some? ==> t.gain.value == v) && t.source == s.source
  {
  }

  /** A voice that runs out without looping stops the player; a looping voice
      never does. */
  lemma EndedStopsUnlessLooping(s: PlayerState)
    requires Valid(s)
    ensures s.isPlaying && !s.isLooping ==> !AfterEnded(s).isPlaying && AfterEnded(s).progress == 0.0 && AfterEnded(s).sounding == {}
    ensures s.isLooping ==> AfterEnded(s) == s
    ensures AfterEnded(s).currentSound == s.currentSound
  {
  }

  // ---------------------------------------------------------------------
  // The provider

  /** The provider's state as fields. Every event method keeps `Valid` and
      moves the state exactly as the matching `After*` function does. */
  class PlayerProvider {
    var hasContext: bool
    var currentSound: Option<Sound>
    var isPlaying: bool
    var volume: real
    var isLooping: bool
    var progress: real
    var sourceRef: Option<Voice>
    var gainNodeRef: Option<real>
    var sounding: set<nat>
    var nextVoice: nat

    function State(): PlayerState
      reads this
    {
      PlayerState(hasContext, currentSound, isPlaying, volume, isLooping, progress,
                  sourceRef, gainNodeRef, sounding, nextVoice)
    }

    constructor()
      ensures State() == Initial && Valid(State())
    {
      hasContext := false;
      currentSound := None;
      isPlaying := false;
      volume := 1.0;
      isLooping := false;
      progress := 0.0;
      sourceRef := None;
      gainNodeRef := None;
      sounding := {};
      nextVoice := 0;
    }

    method OnMount()
      requires Valid(State())
      modifies this
      ensures Valid(State())
      ensures State() == AfterMount(old(State()))
    {
      hasContext := true;
    }

    method StopCurrent()
      requires Valid(State())
      modifies this
      ensures Valid(State())
      ensures State() == AfterStopCurrent(old(State()))
    {
      if sourceRef.Some? {
        sounding := sounding - {sourceRef.value.id};
        sourceRef := None;
      }
      isPlaying := false;
      progress := 0.0;
    }

    method Play(sound: Sound, decodes: bool)
      requires Valid(State())
      modifies this
      ensures Valid(State())
      ensures State() == AfterPlay(old(State()), sound, decodes)
    {
      if !hasContext {
        return;
      }
      if currentSound.Some? && currentSound.value.id == sound.id && isPlaying {
        StopCurrent();
        return;
      }
      StopCurrent();
      currentSound := Some(sound);
      isLooping := sound.loop;
      if sound.blob.Some? {
        if !decodes {
          return;
        }
        var source := Voice(nextVoice, sound.id, sound.loop);
        nextVoice := nextVoice + 1;
        var gainNode := volume;
        sounding := sounding + {source.id};
        sourceRef := Some(source);
        gainNodeRef := Some(gainNode);
        isPlaying := true;
      }
    }

    method Pause()
      requires Valid(State())
      modifies this
      ensures Valid(State())
      ensures State() == AfterPause(old(State()))
    {
      StopCurrent();
    }

    method Stop()
      requires Valid(State())
      modifies this
      ensures Valid(State())
      ensures State() == AfterStop(old(State()))
    {
      StopCurrent();
      currentSound := None;
    }

    method ToggleLoop()
      requires Valid(State())
      modifies this
      ensures Valid(State())
      ensures State() == AfterToggleLoop(old(State()))
    {
      isLooping := !isLooping;
      if sourceRef.Some? {
        sourceRef := Some(sourceRef.value.(loop := isLooping));
      }
    }

    method SetVolume(v: real)
      requires Valid(State())
      modifies this
      ensures Valid(State())
      ensures State() == AfterSetVolume(old(State()), v)
    {
      volume := v;
      if gainNodeRef.Some? {
        gainNodeRef := Some(volume);
      }
    }

    /** The `onended` handler of the live source. */
    method OnEnded()
      requires Valid(State())
      modifies this
      ensures Valid(State())
      ensures State() == AfterEnded(old(State()))
    {
      if sourceRef.Some? && sourceRef.value.id in sounding && !sourceRef.value.loop {
        sounding := sounding - {sourceRef.value.id};
        isPlaying := false;
        progress := 0.0;
      }
    }
  }
}
