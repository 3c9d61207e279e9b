# SonicGrid soundboard — a Dafny model of its core

SonicGrid is a browser soundboard. A signed-in user keeps several boards. Each
board is a grid of pads, and each pad plays one sound. Sounds come from an
uploaded file, a microphone recording or text-to-speech. One shared player
plays them, and only one sound plays at a time. A clip editor cuts a span out
of an audio file and encodes it as a 16-bit PCM WAV file. It appends the clip
to a copy of the chosen board and saves that board. The save sends only the
board's metadata, so the clip itself is not kept.

This project models that core in Dafny:

- `types.dfy` (module `Types`): the sound and board records, the decoded
  audio buffer, and the lookups they share.
- `wav_format.dfy` (`WavFormat`): the little-endian words that a `DataView`
  writes, and the 44-byte RIFF/WAVE header.
- `wav_encoder.dfy` (`WavEncoder`): `bufferToWav` from the clip editor. It
  is an imperative method over a byte array, proved against the function
  `WavFile`. A second method keeps the loop exactly as it is written
  (see "## Findings").
- `gemini_service.dfy` (`GeminiService`): base64-decoded bytes to a byte
  array, and `pcmToWav`, which puts the same header in front of mono speech
  PCM.
- `audio_editor.dfy` (`AudioEditor`): the editor page. It keeps one
  region, picks the selected span and slices the buffer. It appends the cut
  clip to a copy of the chosen board, and only that board's metadata is
  sent to the store. The encoder is a parameter: `AsWritten` is the
  program's own `bufferToWav`, and `Corrected` is the repaired one.
- `player.dfy` (`Player`): the player provider. Its events are functions on
  a `PlayerState`. The class `PlayerProvider` is proved to follow them and
  to keep the player invariant.
- `sound_pad.dfy` (`SoundPad`): a pad's click and its admin lock.
- `board_view.dfy` (`BoardView`): the board page. It loads boards, creates
  and deletes them, changes their layout, and adds, edits, deletes and saves
  sounds.
- `editor_modal.dfy` (`EditorModal`): the sound editor form. It derives
  names from uploads and prompts, and builds the record to save.
- `db.dfy` (`Db`): the request body of a board save.
- `auth.dfy` (`Auth`): sign-in against the account list, sign-out, and the
  session kept in browser storage.

Numbers are unbounded. The header fields are reduced modulo 2^16 or 2^32,
exactly as `DataView.setUint16`/`setUint32` do. Samples are reals. The
float-to-int step `| 0` is written as truncation toward zero.

## Model

| member | source | states |
|---|---|---|
| Types.FindBoard | pages/AudioEditor.tsx:126 | finds a board exactly when some board has the id; the result is in the list, has the id and is the first such board |
| Types.AdminLocked | components/SoundPad.tsx:30 | an admin is never locked out, a sound not created by the admin never locks, and an admin's sound locks every other user and the signed-out state |
| WavFormat.U16 | pages/AudioEditor.tsx:190-193 | a 16-bit little-endian write is two bytes |
| WavFormat.U32 | pages/AudioEditor.tsx:195-198 | a 32-bit little-endian write is four bytes |
| WavFormat.Ascii | services/geminiService.ts:54-58 | one byte per character, equal to its character code |
| WavFormat.U16RoundTrip | pages/AudioEditor.tsx:190-193 | reading back a written 16-bit word gives the value modulo 2^16 |
| WavFormat.U32RoundTrip | pages/AudioEditor.tsx:195-198 | reading back a written 32-bit word gives the value modulo 2^32 |
| WavFormat.I16RoundTrip | pages/AudioEditor.tsx:182 | a sample in the signed 16-bit range reads back unchanged as a signed word |
| WavFormat.RiffHead | pages/AudioEditor.tsx:158-160 | the RIFF chunk head is 12 bytes |
| WavFormat.FmtChunk | pages/AudioEditor.tsx:162-169 | the fmt chunk is 24 bytes |
| WavFormat.FmtFormat | pages/AudioEditor.tsx:162-165 | the first half of the fmt chunk is 12 bytes |
| WavFormat.FmtRates | pages/AudioEditor.tsx:166-169 | the second half of the fmt chunk is 12 bytes |
| WavFormat.DataHead | pages/AudioEditor.tsx:171-172 | the data chunk head is 8 bytes |
| WavFormat.Header | pages/AudioEditor.tsx:158-172 | the header is 44 bytes |
| WavFormat.RiffHeadFields | pages/AudioEditor.tsx:158-160 | the RIFF head reads back as "RIFF", the size 36 + data size, then "WAVE" |
| WavFormat.FmtFormatFields | pages/AudioEditor.tsx:162-165 | reads back as "fmt ", chunk length 16, format 1 (PCM) and the channel count |
| WavFormat.FmtRatesFields | pages/AudioEditor.tsx:166-169 | reads back as the sample rate, the byte rate rate*channels*2, the block align channels*2, and 16 bits |
| WavFormat.FmtChunkFields | pages/AudioEditor.tsx:162-169 | every fmt field reads back at its offset in the 24-byte chunk |
| WavFormat.DataHeadFields | pages/AudioEditor.tsx:171-172 | reads back as "data" and the data size |
| WavFormat.HeaderFields | pages/AudioEditor.tsx:158-172 | all thirteen header fields read back at offsets 0 to 40 with their values |
| WavFormat.HeaderThenData | pages/AudioEditor.tsx:147-172 | data placed after the header keeps the header as the prefix and keeps its size, channel, rate and length fields |
| WavFormat.TagWords | pages/AudioEditor.tsx:158-171 | the four hex constants, written little-endian, are the ASCII tags "RIFF", "WAVE", "fmt " and "data" |
| WavFormat.SetUint16At | services/geminiService.ts:65-70 | a write at a fixed offset puts the word there and leaves every later byte alone |
| WavFormat.SetInt16At | pages/AudioEditor.tsx:182 | a signed 16-bit write stores the two's-complement word and leaves every later byte alone |
| WavFormat.SetUint32At | services/geminiService.ts:61-72 | a write at a fixed offset puts the word there and leaves every later byte alone |
| WavEncoder.Quantise | pages/AudioEditor.tsx:180-181 | every sample maps into the signed 16-bit range |
| WavEncoder.TruncBounds | pages/AudioEditor.tsx:181 | `\| 0` keeps a scaled, clamped sample inside the 16-bit range |
| WavEncoder.QuantiseValues | pages/AudioEditor.tsx:180-181 | 1.0 gives 32767, -1.0 gives -32768 and 0 gives 0; out-of-range input saturates; clamping first changes nothing; the negative scale applies only below -0.5 |
| WavEncoder.QuantiseMonotone | pages/AudioEditor.tsx:180-181 | a louder sample never gives a smaller word |
| WavEncoder.Clamp | pages/AudioEditor.tsx:180 | the result lies in [-1, 1]; a sample already inside is unchanged, and one outside saturates at the nearer end |
| WavEncoder.Trunc | pages/AudioEditor.tsx:181 | `\| 0` truncates toward zero: for a non-negative input the result is its floor, for a negative input its ceiling |
| WavEncoder.Channels | pages/AudioEditor.tsx:179-184 | one frame of i channels is 2*i bytes |
| WavEncoder.FramesLength | pages/AudioEditor.tsx:178-186 | frames lo to hi take 2 * channels * (hi - lo) bytes |
| WavEncoder.ChannelsAt | pages/AudioEditor.tsx:179-184 | within a frame, channel c sits at bytes 2c and 2c+1 as its quantised little-endian word |
| WavEncoder.FramesAt | pages/AudioEditor.tsx:178-186 | channel c of frame p sits at byte offset 2*channels*(p-lo) + 2c of the interleaved data |
| WavEncoder.FramesStep | pages/AudioEditor.tsx:178-186 | one loop turn appends exactly one frame of 2*channels bytes, still within the data chunk |
| WavEncoder.FramesSplit | pages/AudioEditor.tsx:178-186 | the interleaved data of a run of frames is the concatenation of its two halves |
| WavEncoder.WavFileHeader | pages/AudioEditor.tsx:147-172 | (the header and length are shared by the as-written and the corrected encoder) the file is length*channels*2 + 44 bytes; its header declares that length minus 8, the channel count, the sample rate and the data size |
| WavEncoder.WavFileSampleAt | pages/AudioEditor.tsx:175-186 | for the corrected encoder (see ## Findings), the signed word at byte 44 + 2*(p*channels + c) is the quantised sample of channel c at frame p |
| WavEncoder.AsWrittenShifted | pages/AudioEditor.tsx:172-186 | as written, the file keeps the header and length, loses the first 44 frames and ends in 44 frames of zeros |
| WavEncoder.AsWrittenSampleAt | pages/AudioEditor.tsx:178-186 | as written, the word for frame p holds the sample of frame p + 44 |
| WavEncoder.AsWrittenDropsFirstFrames | pages/AudioEditor.tsx:155-186 | for a buffer whose first sample is 1.0 and whose frame 44 is 0, the intended file's first word is 32767 and the as-written file's is 0 |
| WavEncoder.SetUint16 | pages/AudioEditor.tsx:190-193 | writes the word at the cursor, advances the cursor by 2 and leaves later bytes alone |
| WavEncoder.SetUint32 | pages/AudioEditor.tsx:195-198 | writes the word at the cursor, advances the cursor by 4 and leaves later bytes alone |
| WavEncoder.WriteRiffHead | pages/AudioEditor.tsx:158-160 | the three cursor writes append the RIFF head for a file of the given length |
| WavEncoder.WriteFmtFormat | pages/AudioEditor.tsx:162-165 | the four cursor writes append the first half of the fmt chunk |
| WavEncoder.WriteFmtRates | pages/AudioEditor.tsx:166-169 | the four cursor writes append the rates half of the fmt chunk |
| WavEncoder.WriteFmtChunk | pages/AudioEditor.tsx:162-169 | the eight cursor writes append the fmt chunk |
| WavEncoder.WriteDataHead | pages/AudioEditor.tsx:171-172 | at cursor 36, the data size `length - pos - 4` is the file length minus 44 |
| WavEncoder.WriteHeader | pages/AudioEditor.tsx:147-172 | a fresh zero-filled buffer of the file length whose first 44 bytes are the header, with the cursor left at 44 |
| WavEncoder.WriteFrame | pages/AudioEditor.tsx:179-184 | the inner loop appends one interleaved frame at the offset and leaves later bytes alone |
| WavEncoder.WriteSamples | pages/AudioEditor.tsx:178-186 | the outer loop writes the interleaved frames from `start` on right after the header, and leaves the rest of the buffer as it was |
| WavEncoder.BufferToWav | pages/AudioEditor.tsx:146-188 | the encoder with the loop starting at frame 0 returns exactly `WavFile` of the buffer |
| WavEncoder.BufferToWavAsWritten | pages/AudioEditor.tsx:146-188 | the encoder with the loop as written returns exactly `WavFileAsWritten` of the buffer |
| GeminiService.CharCodes | services/geminiService.ts:8-10 | one byte per character of the binary string |
| GeminiService.CharCodesExact | services/geminiService.ts:4-12 | for a binary string, which has only codes below 256, each byte is the character code and the result is its ASCII bytes |
| GeminiService.Decode | services/geminiService.ts:4-12 | a fresh byte array holding the character codes of the binary string |
| GeminiService.WriteString | services/geminiService.ts:54-58 | writes the tag's codes at the offset and leaves later bytes alone |
| GeminiService.PcmRiffHead | services/geminiService.ts:60-62 | the first 12 bytes become the RIFF head for 36 + n |
| GeminiService.PcmFmtFormat | services/geminiService.ts:63-66 | bytes 12 to 23 become "fmt ", 16, PCM and the channel count |
| GeminiService.PcmFmtRates | services/geminiService.ts:67-70 | bytes 24 to 35 become the sample rate, byte rate, block align and 16 bits |
| GeminiService.PcmDataHead | services/geminiService.ts:71-72 | bytes 36 to 43 become "data" and the PCM length |
| GeminiService.PcmHeader | services/geminiService.ts:48-72 | the 44-byte view equals the mono header for the given rate and data length |
| GeminiService.PcmToWav | services/geminiService.ts:47-81 | the WAV file is the mono header followed by the unchanged PCM bytes |
| GeminiService.SpeechToWav | services/geminiService.ts:30-38 | an empty audio field is an error; otherwise the result is the 24000 Hz mono WAV of the decoded bytes |
| GeminiService.MonoHeaderFields | services/geminiService.ts:60-72 | the fixed-offset header reads back with one channel, block align 2, byte rate rate*2 and data length n |
| GeminiService.PcmLayout | services/geminiService.ts:47-81 | the file is 44 + n bytes; the PCM follows the header unchanged; the header fields read back |
| GeminiService.SpeechRates | services/geminiService.ts:37-38 | every speech clip declares 24000 Hz and 48000 bytes per second |
| GeminiService.MonoHeaderAgrees | services/geminiService.ts:47-72 | for one channel, the header `pcmToWav` writes equals the one `bufferToWav` writes |
| Db.BoardPayload | services/db.ts:46-48 | the request body carries the board's id, name, columns and gap |
| Db.PayloadIgnoresSounds | services/db.ts:46-48 | the saved request does not depend on the board's sounds |
| Db.PayloadKeepsMetadata | services/db.ts:46-48 | two boards give the same request exactly when they agree on everything but their sounds |
| AudioEditor.Selection | pages/AudioEditor.tsx:93-100 | the span is the first region's, or 0 to the duration when there is none |
| AudioEditor.FrameAt | pages/AudioEditor.tsx:109-110 | the frame is the floor of time times rate: at most the product and more than the product minus one; a non-negative time gives a non-negative frame |
| AudioEditor.CutClip | pages/AudioEditor.tsx:128-137 | the clip is an upload with the given id, named "Cut - " followed by the file name, holding the WAV, coloured #10b981, at volume 1, not looping, with an empty shortcut and no icon or creator |
| AudioEditor.Slice | pages/AudioEditor.tsx:108-120 | same rate and channel count, frameCount frames, and channel i frame j is source frame startFrame + j |
| AudioEditor.SliceBuffer | pages/AudioEditor.tsx:112-120 | the nested copy loops build exactly `Slice` |
| AudioEditor.Editor.constructor | pages/AudioEditor.tsx:9-17 | the editor mounts with no regions, no file and no boards |
| AudioEditor.Editor.LoadBoards | pages/AudioEditor.tsx:19-24 | stores the boards and selects the first one, if any |
| AudioEditor.Editor.FileUpload | pages/AudioEditor.tsx:64-71 | a file loads only when one is chosen and the waveform exists; otherwise nothing changes |
| AudioEditor.Editor.CreateRegion | pages/AudioEditor.tsx:52-56 | a new region removes every region with another id, so only the new one is left |
| AudioEditor.Editor.AddRegion | pages/AudioEditor.tsx:77-88 | replaces all regions by one region from 25% to 75% of the duration |
| AudioEditor.Editor.Extract | pages/AudioEditor.tsx:90-143 | the outcome is `Extraction` of the editor state with the chosen encoder (`BufferToWavAsWritten` for `AsWritten`); the state itself is unchanged |
| AudioEditor.KeepIdSnoc | pages/AudioEditor.tsx:53-55 | filtering a list with one more region filters the list and then that region |
| AudioEditor.KeepId | pages/AudioEditor.tsx:53-55 | the regions kept are exactly those in the list with the new region's id, and never more than the list holds |
| AudioEditor.RemoveStep | pages/AudioEditor.tsx:53-55 | removing region k inside the loop keeps the regions already kept plus the ones not yet visited |
| AudioEditor.KeepIdOnly | pages/AudioEditor.tsx:52-56 | with fresh ids, the new region is the only one left |
| AudioEditor.ExtractAppendsClip | pages/AudioEditor.tsx:108-139 | a save needs a loaded file, a decoded buffer and a span inside it; the copy of the board gets one clip appended, named "Cut - " + file name, coloured #10b981 with an empty shortcut (the whole record is the cut clip), and its WAV is the slice encoded by the chosen encoder |
| AudioEditor.ExtractSendsMetadataOnly | pages/AudioEditor.tsx:138-139 | the request equals the selected board's metadata, so the new clip is not sent |
| AudioEditor.ExtractedSample | pages/AudioEditor.tsx:114-123 | with the corrected encoder, every sample of the cut clip is the quantised source sample it came from |
| AudioEditor.ExtractedSampleAsWritten | pages/AudioEditor.tsx:114-123 | with the program's encoder, the word for clip frame p holds source frame startFrame + p + 44 |
| AudioEditor.ExtractShortClipSilent | pages/AudioEditor.tsx:109-123 | with the program's encoder, a clip of at most 44 frames has only zero bytes after its header |
| AudioEditor.WholeFileByDefault | pages/AudioEditor.tsx:94-95 | with no region, extraction runs from frame 0 to the frame at the duration |
| AudioEditor.CutExample | pages/AudioEditor.tsx:82-83 | with the corrected encoder, cutting 25%–75% of a 4-frame, 4 Hz mono buffer keeps frames 1 and 2 (-32768 and 0) in a 48-byte file |
| AudioEditor.CutExampleAsWritten | pages/AudioEditor.tsx:82-83 | the same cut with the program's encoder is a 48-byte file whose two data words are both 0 |
| Player.InitialValid | context/PlayerContext.tsx:21-40 | the mounted provider satisfies the player invariant, before and after the context exists |
| Player.EventsPreserveValid | context/PlayerContext.tsx:42-145 | every event keeps the invariant: at most the slot's voice sounds, `isPlaying` means it does, its loop flag and the gain follow the state |
| Player.PlaySameTogglesOff | context/PlayerContext.tsx:85-88 | playing the sound that is playing stops it and keeps it current |
| Player.PlayIsExclusive | context/PlayerContext.tsx:90-131 | any other play stops the old voice; only a new voice for this sound can sound, looping as the sound says |
| Player.PlayWithoutAudio | context/PlayerContext.tsx:90-98 | a sound with no audio, or audio that does not decode, becomes current and nothing plays |
| Player.PlayStarts | context/PlayerContext.tsx:98-131 | a decoded sound leaves exactly one live voice, playing at the current volume |
| Player.PlayNeedsContext | context/PlayerContext.tsx:79 | before the AudioContext exists, play changes nothing |
| Player.StopAndPause | context/PlayerContext.tsx:134-141 | both silence everything and reset progress; only stop forgets the current sound |
| Player.ToggleLoopTwice | context/PlayerContext.tsx:143-145 | toggling twice restores the state, including the live loop flag |
| Player.SettingsLeavePlayback | context/PlayerContext.tsx:42-52 | changing the loop or the volume updates the live source or gain and leaves playback alone |
| Player.EndedStopsUnlessLooping | context/PlayerContext.tsx:113-123 | a non-looping end stops playing and resets progress; a looping source never ends |
| Player.PlayerProvider.constructor | context/PlayerContext.tsx:21-32 | starts in the initial state, which satisfies the player invariant |
| Player.PlayerProvider.OnMount | context/PlayerContext.tsx:34-40 | the state becomes `AfterMount` of the old state, and the player invariant is kept |
| Player.PlayerProvider.StopCurrent | context/PlayerContext.tsx:66-76 | the state becomes `AfterStopCurrent` of the old state, and the player invariant is kept |
| Player.PlayerProvider.Play | context/PlayerContext.tsx:78-132 | the state becomes `AfterPlay` of the old state, and the player invariant is kept |
| Player.PlayerProvider.Pause | context/PlayerContext.tsx:134-136 | the state becomes `AfterPause` of the old state, and the player invariant is kept |
| Player.PlayerProvider.Stop | context/PlayerContext.tsx:138-141 | the state becomes `AfterStop` of the old state, and the player invariant is kept |
| Player.PlayerProvider.ToggleLoop | context/PlayerContext.tsx:143-145 | the state becomes `AfterToggleLoop` of the old state, and the player invariant is kept |
| Player.PlayerProvider.SetVolume | context/PlayerContext.tsx:42-46 | the state becomes `AfterSetVolume` of the old state, and the player invariant is kept |
| Player.PlayerProvider.OnEnded | context/PlayerContext.tsx:113-123 | the state becomes `AfterEnded` of the old state, and the player invariant is kept |
| SoundPad.IsPadPlaying | components/SoundPad.tsx:20 | a pad shows as playing only while the player plays; with a current sound and the player playing, exactly the pad with the current sound's id does |
| SoundPad.CanDelete | components/SoundPad.tsx:48 | delete is offered unless the sound is the admin's and the user is not the admin |
| SoundPad.HandleClick | components/SoundPad.tsx:27-42 | in edit mode: refuse an admin sound for another user, else edit; otherwise pause exactly when this pad is playing, else play |
| SoundPad.ClickMatchesPlayerToggle | components/SoundPad.tsx:36-40 | a click on a pad leads to the same player state as calling `play` with that sound |
| SoundPad.PadAndBoardChecksAgree | components/SoundPad.tsx:30-48 | the pad refuses to edit exactly the sounds it hides delete for, which are the ones the board's lock rejects |
| BoardView.ActiveBoard | App.tsx:64 | none only when there are no boards; the board with the active id if one has it, otherwise the first |
| BoardView.ReplaceBoard | App.tsx:97 | same length; boards with the updated id are replaced, the others kept |
| BoardView.FindSound | App.tsx:119 | found exactly when a sound has the id; the result is the first with that id |
| BoardView.DeleteSoundById | App.tsx:127 | keeps exactly the sounds with other ids; no match changes nothing |
| BoardView.DeleteSoundByIdOne | App.tsx:127 | on one sound, the filter keeps it exactly when its id differs |
| BoardView.DeleteSoundByIdAppend | App.tsx:127 | the filter distributes over concatenation, so order and repeats are kept |
| BoardView.UpsertSound | App.tsx:150-156 | an existing id is replaced in place; otherwise the sound is appended |
| BoardView.NormalizeSound | App.tsx:136-146 | each missing or empty field gets its default ("Untitled", upload, #06b6d4, volume 1, no loop); the creator falls back to the user, then "unknown" |
| BoardView.NatToString | App.tsx:69 | the text is non-empty and all digits, denotes the number in decimal, and has no leading zero unless the number is 0 |
| BoardView.NewBoard | App.tsx:67-73 | a new board is "New Board n+1", 4 columns, gap 4, no sounds |
| BoardView.RemoveBoard | App.tsx:87 | keeps exactly the boards with other ids |
| BoardView.RemoveBoardOne | App.tsx:87 | on one board, the filter keeps it exactly when its id differs |
| BoardView.RemoveBoardAppend | App.tsx:87 | the filter distributes over concatenation, so order and repeats are kept |
| BoardView.ApplyConfig | App.tsx:95 | changes only the chosen field of the board |
| BoardView.NewBoardName | App.tsx:69 | with 11 boards the new one is named "New Board 12" |
| BoardView.DeleteLeavesABoard | App.tsx:80-89 | with more than one board and distinct ids, a board remains after deleting; the first remaining board is the first board, or the second when the first is the one deleted |
| BoardView.SaveTouchesActiveBoardOnly | App.tsx:158-159 | saving a sound leaves every other board unchanged |
| BoardView.Board.constructor | App.tsx:32-40 | starts with no boards, loading, the modal closed |
| BoardView.Board.Init | App.tsx:43-62 | no stored boards: the default board is saved and selected; otherwise the loaded boards, with the first selected; loading ends either way |
| BoardView.Board.CreateBoard | App.tsx:66-78 | a saved new board is appended, becomes active and turns on edit mode; a failed save changes nothing |
| BoardView.Board.DeleteBoard | App.tsx:80-91 | the last board, a declined confirm or a failed delete change nothing; otherwise the active board is removed and the first remaining one becomes active |
| BoardView.Board.UpdateBoardConfig | App.tsx:93-98 | the active board gets the change and replaces its old copy |
| BoardView.Board.AddSound | App.tsx:101-104 | opens the editor on an empty sound with a fresh id |
| BoardView.Board.EditSound | App.tsx:106-114 | an admin sound for another user is refused; otherwise the editor opens on it |
| BoardView.Board.DeleteSound | App.tsx:116-130 | unless the sound is admin-locked or the delete fails, the active board loses every sound with that id |
| BoardView.Board.SaveSound | App.tsx:132-161 | the normalised sound is upserted into the active board, and the modal closes |
| EditorModal.UploadName | components/EditorModal.tsx:62 | the name is the file name up to its first dot |
| EditorModal.AiName | components/EditorModal.tsx:105 | prompts of up to 15 characters are kept; longer ones become their first 15 characters plus "..." |
| EditorModal.IsBlank | components/EditorModal.tsx:98 | a prompt is blank when it is empty, or when its first character is ECMAScript white space and the rest is blank |
| EditorModal.VolumeOr | components/EditorModal.tsx:19 | an absent volume and a volume of 0 both give the default; any other volume is kept |
| EditorModal.Form.constructor | components/EditorModal.tsx:16-34 | the form starts from the incoming sound's fields and their defaults, on the upload tab |
| EditorModal.Form.Open | components/EditorModal.tsx:36-46 | opening reloads the fields from the sound and clears the prompt and the error |
| EditorModal.Form.FileChange | components/EditorModal.tsx:58-64 | a chosen file becomes the audio and, if the name is empty, names it |
| EditorModal.Form.GenerateAI | components/EditorModal.tsx:97-112 | a blank prompt does nothing; success sets the audio and, if the name is empty, names it; failure sets the error message; generating ends either way |
| EditorModal.Form.Save | components/EditorModal.tsx:114-126 | nothing without audio; otherwise the sound with the form's fields, "Untitled" for an empty name, the new or old audio, and the tab as its source |
| EditorModal.UploadNameOfStem | components/EditorModal.tsx:62 | a dot-free stem names both itself and itself followed by a dot and any extension |
| EditorModal.VolumeDefaults | components/EditorModal.tsx:19-21 | volume 0 and no volume both fall back to 1; the default color is the fifth of the palette |
| EditorModal.BlankPrompts | components/EditorModal.tsx:98 | an empty or all-whitespace prompt is blank; a prompt with text is not |
| Auth.Matches | auth/AuthContext.tsx:26 | an account matches exactly when it is the account with that name and key |
| Auth.FindAccount | auth/AuthContext.tsx:26 | found exactly when an account matches both the name and the key; the result is the first match |
| Auth.AuthProvider.constructor | auth/AuthContext.tsx:14-15 | starts signed out over the browser's storage |
| Auth.AuthProvider.Restore | auth/AuthContext.tsx:17-23 | the state becomes `AfterRestore` of the old state, and the session stays consistent |
| Auth.AuthProvider.Login | auth/AuthContext.tsx:25-34 | returns true exactly when an account matches; the state becomes `AfterLogin` of the old state |
| Auth.AuthProvider.Logout | auth/AuthContext.tsx:36-40 | the state becomes `AfterLogout` of the old state |
| Auth.LoginSurvivesReload | auth/AuthContext.tsx:17-34 | after a successful login, a reload signs the same user in again |
| Auth.LogoutSurvivesReload | auth/AuthContext.tsx:17-23 | after a logout, a reload stays signed out |
| Auth.LoginOutcome | auth/AuthContext.tsx:25-34 | a match signs that user in and stores the name; no match changes nothing |
| Auth.LogoutOutcome | auth/AuthContext.tsx:36-40 | signs out and removes only the stored name |
| Auth.RestoreOutcome | auth/AuthContext.tsx:17-23 | a non-empty stored name restores that user; otherwise nothing changes |
| Auth.EventsPreserveValid | auth/AuthContext.tsx:17-40 | every event keeps the flag in step with the user, and a signed-in user is stored |

## Left out

- Web Audio is reduced to what the player can observe. The model keeps which voices sound, the live loop flag and the gain value. It does not model the audio graph, `AudioContext.close`, or timing.
- Progress polling (`updateProgress` and `requestAnimationFrame`) is not modelled, because it depends on the clock. Progress is only reset to 0.
- Asynchronous interleavings are not modelled. Each `await` is taken to complete before the next event, and a late `onended` from a replaced source is not modelled.
- IEEE floating point is not modelled. Samples and times are reals, so NaN, infinities and rounding in `start * sampleRate` are not covered.
- The WaveSurfer widget is reduced to its region list and the duration it reports. Rendering, dragging and resizing are left out.
- Microphone recording (`toggleRecording`, `MediaRecorder`) is left out because it is device I/O. Its name-on-stop step follows the same "name only if empty" rule as the other branches.
- The text-to-speech request, `atob` and `response.json` are left out because they are network and host calls. The decoded binary string is a parameter of `SpeechToWav`.
- Object URLs, previews and every view's markup are left out. So are `alert`, `confirm` and navigation, which are user I/O; a confirm answer is a parameter.
- Every network save (`saveBoard`, `deleteBoard`, `saveSound`, `deleteSound`, `loadBoards`) is a parameter. The parameter says whether the call succeeded or what it returned, and a failure is taken to skip the rest of the handler.
- `crypto.randomUUID` is a parameter (the new id).
- `users.json` is a parameter, and `localStorage` is a map field.
- The blob's MIME type is not modelled; a blob is its bytes.
- The grid's column count and gap are plain integers. Parsing them from a form input (`parseInt`, and NaN) is left out.
- AudioEditor.Extract: the encoder is a parameter. The program always runs `AsWritten`; `Corrected` is the repaired encoder from "## Findings".
- AudioEditor.ExtractedSample: stated for the corrected encoder. For the program's encoder, see `ExtractedSampleAsWritten` and `ExtractShortClipSilent`.
- AudioEditor.Extract: a span that reaches past the decoded frames ends in the `OutsideAudio` outcome. The source would read `undefined` samples and write them as 0.
- AudioEditor.Extract: a failing `createBuffer` (no frames or no channels) ends in the `EmptySpan` outcome, and no clip is made.
- Auth.LoginSurvivesReload: stated only for a non-empty user name. The restore effect treats an empty stored name as absent, so an empty name does not survive a reload.
- EditorModal.AiName: lengths are counted in characters (Unicode scalar values), not in the UTF-16 code units that `length` and `substring` count. A prompt with characters outside the Basic Multilingual Plane can be cut differently.
- WavEncoder.Quantise follows the code, not the prose description of the format. The code uses the negative scale 32768 only when `0.5 + s < 0`. Samples from -0.5 to 0 are scaled by 32767.

## Findings

| source | as written | input that shows it | evidently intended | confidence | as-written member | corrected member |
|---|---|---|---|---|---|---|
| pages/AudioEditor.tsx:175-186 | the sample loop starts at `pos`, which still holds the header cursor 44, so frames 0 to 43 are never written and the last 44 frames of the data chunk stay zero | any buffer of more than 44 frames whose first sample is 1.0 and whose frame 44 is 0: the word at byte 44 is 0 instead of 32767 | the loop starts at frame 0, and the data chunk holds every frame in order | high, not executed | WavEncoder.BufferToWavAsWritten | WavEncoder.BufferToWav |
