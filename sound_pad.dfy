/** One pad of the grid: whether it shows as playing, whether its delete
    button is shown, and which callback a click invokes. */
module SoundPad {
  import opened Types
  import Player

  /** The pad shows as playing when its sound is the player's current sound
      and the player is playing. */
  function IsPadPlaying(sound: Sound, currentSound: Option<Sound>, isGlobalPlaying: bool): (r: bool)
    ensures r ==> isGlobalPlaying && currentSound.Some?
    ensures currentSound.Some? && isGlobalPlaying ==> (r <==> currentSound.value.id == sound.id)
  {
    currentSound.Some? && currentSound.value.id == sound.id && isGlobalPlaying
  }

  /** The delete button is offered unless the sound is an admin's and the
      user is not the admin. */
  function CanDelete(sound: Sound, user: Option<string>): (r: bool)
    ensures r <==> !(sound.createdBy == Some("admin") && user != Some("admin"))
  {
    !AdminLocked(sound.createdBy, user)
  }

  /** The callback a click ends in. */
  datatype PadAction = Refused | Edit(sound: Sound) | Pause | Play(sound: Sound)

  /** `handleClick`. */
  function HandleClick(sound: Sound, isEditMode: bool, currentSound: Option<Sound>, isGlobalPlaying: bool,
                       user: Option<string>): (a: PadAction)
    ensures isEditMode ==> (a.Refused? || a == Edit(sound))
    ensures isEditMode ==> (a.Refused? <==> sound.createdBy == Some("admin") && user != Some("admin"))
    ensures !isEditMode ==> (a == Pause <==> IsPadPlaying(sound, currentSound, isGlobalPlaying))
    ensures !isEditMode ==> (a == Play(sound) <==> !IsPadPlaying(sound, currentSound, isGlobalPlaying))
    ensures !isEditMode ==> a.Pause? || a.Play?
  {
    if isEditMode then
      if AdminLocked(sound.createdBy, user) then Refused else Edit(sound)
    else if IsPadPlaying(sound, currentSound, isGlobalPlaying) then Pause
    else Play(sound)
  }

  /** The player after the click's callback (edits leave the player alone). */
  function ClickPlayer(s: Player.PlayerState, a: PadAction, decodes: bool): Player.PlayerState
  {
    match a
    case Pause => Player.AfterPause(s)
    case Play(sound) => Player.AfterPlay(s, sound, decodes)
    case _ => s
  }

  /** A click outside edit mode agrees with the player's own toggle: on a
      playing pad it pauses, which is what `play` would have done for the same
      sound; on any other pad it calls `play`, which then never takes its
      toggle-off branch, so the pad's sound becomes current. */
  lemma ClickMatchesPlayerToggle(s: Player.PlayerState, sound: Sound, user: Option<string>, decodes: bool)
    requires s.hasContext
    ensures var a := HandleClick(sound, false, s.currentSound, s.isPlaying, user);
      && ClickPlayer(s, a, decodes) == Player.AfterPlay(s, sound, decodes)
      && (a.Play? ==> !Player.TogglesOff(s, sound) && ClickPlayer(s, a, decodes).currentSound == Some(sound))
  {
  }

  /** The pad refuses an edit exactly when it hides the delete button, which
      is the board's own check for editing and deleting. */
  lemma PadAndBoardChecksAgree(sound: Sound, user: Option<string>, currentSound: Option<Sound>, playing: bool)
    ensures HandleClick(sound, true, currentSound, playing, user).Refused? <==> !CanDelete(sound, user)
    ensures !CanDelete(sound, user) <==> AdminLocked(sound.createdBy, user)
  {
  }
}
