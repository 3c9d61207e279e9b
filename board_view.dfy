/** The board screen: the list of boards, the active one, and the handlers
    that create, delete and configure boards and add, edit, delete and save
    the sounds of the active board. Every store call is awaited before the
    state changes; its outcome is a boolean parameter, and a failed call
    rejects the handler before any state change. */
module BoardView {
  import opened Types

  /** The board stored and shown when the store holds none. */
  const DefaultBoard := SoundBoard("default-1", "Main Board", 4, 4, [])

  /** `boards.find(b => b.id === activeBoardId) || boards[0]`; absent only
      when there are no boards. */
  function ActiveBoard(boards: seq<SoundBoard>, activeBoardId: string): (r: Option<SoundBoard>)
    ensures r.None? <==> boards == []
    ensures r.Some? ==> r.value in boards
    ensures (exists k :: 0 <= k < |boards| && boards[k].id == activeBoardId) ==>
              r.Some? && r.value.id == activeBoardId
    ensures (forall k :: 0 <= k < |boards| ==> boards[k].id != activeBoardId) ==>
              r == if boards == [] then None else Some(boards[0])
  {
    var found := FindBoard(boards, activeBoardId);
    if found.Some? then found else if boards == [] then None else Some(boards[0])
  }

  /** `boards.map(b => b.id === updated.id ? updated : b)`. */
  function ReplaceBoard(boards: seq<SoundBoard>, updated: SoundBoard): (r: seq<SoundBoard>)
    ensures |r| == |boards|
    ensures forall k :: 0 <= k < |r| && boards[k].id != updated.id ==> r[k] == boards[k]
    ensures forall k :: 0 <= k < |r| && boards[k].id == updated.id ==> r[k] == updated
  {
    seq(|boards|, k requires 0 <= k < |boards| => if boards[k].id == updated.id then updated else boards[k])
  }

  /** `sounds.find(s => s.id === id)`. */
  function FindSound(sounds: seq<Sound>, id: string): (r: Option<Sound>)
    ensures r.Some? <==> exists k :: 0 <= k < |sounds| && sounds[k].id == id
    ensures r.Some? ==> exists k :: 0 <= k < |sounds| && sounds[k] == r.value && r.value.id == id &&
                                    forall m :: 0 <= m < k ==> sounds[m].id != id
  {
    if sounds == [] then None
    else if sounds[0].id == id then Some(sounds[0])
    else
      var r := FindSound(sounds[1..], id);
      if r.Some? then
        var k :| 0 <= k < |sounds| - 1 && sounds[1..][k] == r.value && r.value.id == id &&
          forall m :: 0 <= m < k ==> sounds[1..][m].id != id;
        assert sounds[k + 1] == r.value;
        assert forall m :: 0 <= m < k + 1 ==> sounds[m].id != id by {
          forall m | 0 <= m < k + 1 ensures sounds[m].id != id {
            if m > 0 { assert sounds[m] == sounds[1..][m - 1]; }
          }
        }
        r
      else
        assert forall k :: 1 <= k < |sounds| ==> sounds[k] == sounds[1..][k - 1];
        r
  }

  /** `sounds.filter(s => s.id !== id)`. */
  function DeleteSoundById(sounds: seq<Sound>, id: string): (r: seq<Sound>)
    ensures |r| <= |sounds|
    ensures forall x :: x in r <==> x in sounds && x.id != id
    ensures (forall k :: 0 <= k < |sounds| ==> sounds[k].id != id) ==> r == sounds
  {
    if sounds == [] then []
    else
      var rest := DeleteSoundById(sounds[1..], id);
      assert sounds == [sounds[0]] + sounds[1..];
      if sounds[0].id == id then rest else [sounds[0]] + rest
  }

  /** The update of `handleSaveSound`: a sound whose id is on the board
      replaces every entry with that id in place; a new id is appended. */
  function UpsertSound(sounds: seq<Sound>, s: Sound): (r: seq<Sound>)
    ensures (exists k :: 0 <= k < |sounds| && sounds[k].id == s.id) ==>
      |r| == |sounds| &&
      forall k :: 0 <= k < |sounds| ==> r[k] == if sounds[k].id == s.id then s else sounds[k]
    ensures (forall k :: 0 <= k < |sounds| ==> sounds[k].id != s.id) ==> r == sounds + [s]
    ensures s in r
  {
    if FindSound(sounds, s.id).Some? then
      seq(|sounds|, k requires 0 <= k < |sounds| => if sounds[k].id == s.id then s else sounds[k])
    else sounds + [s]
  }

  /** The record `handleSaveSound` stores: each field of the form with the
      JavaScript `||` default (an empty string counts as absent), except the
      volume, defaulted with `??` so that a volume of 0 is kept. The icon is
      not copied. */
  function NormalizeSound(soundData: PartialSound, freshId: string, user: Option<string>): (r: Sound)
    ensures r.id == (if Truthy(soundData.id) then soundData.id.value else freshId)
    ensures r.name == (if Truthy(soundData.name) then soundData.name.value else "Untitled")
    ensures r.source == (if soundData.source.Some? then soundData.source.value else Upload)
    ensures r.color == (if Truthy(soundData.color) then soundData.color.value else "#06b6d4")
    ensures soundData.volume.Some? ==> r.volume == soundData.volume.value
    ensures soundData.volume.None? ==> r.volume == 1.0
    ensures r.loop <==> soundData.loop == Some(true)
    ensures r.blob == soundData.blob && r.shortcut == soundData.shortcut && r.icon.None?
    ensures r.createdBy == Some(if Truthy(soundData.createdBy) then soundData.createdBy.value
                                else if Truthy(user) then user.value else "unknown")
  {
    Sound(StrOr(soundData.id, freshId),
          StrOr(soundData.name, "Untitled"),
          if soundData.source.Some? then soundData.source.value else Upload,
          soundData.blob,
          StrOr(soundData.color, "#06b6d4"),
          None,
          if soundData.volume.Some? then soundData.volume.value else 1.0,
          soundData.loop == Some(true),
          soundData.shortcut,
          Some(StrOr(soundData.createdBy, StrOr(user, "unknown"))))
  }

  /** The character of a decimal digit. */
  function Digit(k: nat): (c: char)
    requires k < 10
  {
    ('0' as int + k) as char
  }

  /** The value of a digit character. */
  function DigitValue(c: char): nat
  {
    if '0' <= c <= '9' then c as int - '0' as int else 0
  }

  /** The number a string of decimal digits denotes, read left to right. */
  function DigitsValue(s: string): nat
  {
    if s == [] then 0 else 10 * DigitsValue(s[..|s| - 1]) + DigitValue(s[|s| - 1])
  }

  /** The decimal digits of `n`, as a template literal prints them: digits
      only, denoting `n`, with no leading zero. */
  function NatToString(n: nat): (r: string)
    ensures |r| >= 1 && forall i :: 0 <= i < |r| ==> '0' <= r[i] <= '9'
    ensures DigitsValue(r) == n
    ensures n == 0 ==> r == "0"
    ensures n > 0 ==> r[0] != '0'
    decreases n
  {
    if n < 10 then [Digit(n)]
    else
      var front := NatToString(n / 10);
      var r := front + [Digit(n % 10)];
      assert r[..|r| - 1] == front;
      r
  }

  /** The board `handleCreateBoard` adds. */
  function NewBoard(count: nat, id: string): (b: SoundBoard)
    ensures b.id == id && b.columns == 4 && b.gap == 4 && b.sounds == []
    ensures b.name == "New Board " + NatToString(count + 1)
  {
    SoundBoard(id, "New Board " + NatToString(count + 1), 4, 4, [])
  }

  /** `boards.filter(b => b.id !== id)`. */
  function RemoveBoard(boards: seq<SoundBoard>, id: string): (r: seq<SoundBoard>)
    ensures |r| <= |boards|
    ensures forall b :: b in r <==> b in boards && b.id != id
  {
    if boards == [] then []
    else
      var rest := RemoveBoard(boards[1..], id);
      assert boards == [boards[0]] + boards[1..];
      if boards[0].id == id then rest else [boards[0]] + rest
  }

  /** The sound filter keeps order and multiplicity: it works element by
      element and distributes over concatenation. */
  lemma DeleteSoundByIdOne(x: Sound, id: string)
    ensures DeleteSoundById([x], id) == if x.id == id then [] else [x]
  {
    assert [x][1..] == [];
  }

  lemma {:induction false} DeleteSoundByIdAppend(a: seq<Sound>, b: seq<Sound>, id: string)
    ensures DeleteSoundById(a + b, id) == DeleteSoundById(a, id) + DeleteSoundById(b, id)
    decreases |a|
  {
    if a == [] {
      assert a + b == b;
    } else {
      assert (a + b)[0] == a[0] && (a + b)[1..] == a[1..] + b;
      DeleteSoundByIdAppend(a[1..], b, id);
    }
  }

  /** The board filter keeps order and multiplicity in the same way. */
  lemma RemoveBoardOne(x: SoundBoard, id: string)
    ensures RemoveBoard([x], id) == if x.id == id then [] else [x]
  {
    assert [x][1..] == [];
  }

  lemma {:induction false} RemoveBoardAppend(a: seq<SoundBoard>, b: seq<SoundBoard>, id: string)
    ensures RemoveBoard(a + b, id) == RemoveBoard(a, id) + RemoveBoard(b, id)
    decreases |a|
  {
    if a == [] {
      assert a + b == b;
    } else {
      assert (a + b)[0] == a[0] && (a + b)[1..] == a[1..] + b;
      RemoveBoardAppend(a[1..], b, id);
    }
  }

  /** The settings the board header edits. */
  datatype ConfigChange = Name(name: string) | Columns(columns: int) | Gap(gap: int)

  function ApplyConfig(b: SoundBoard, change: ConfigChange): (r: SoundBoard)
    ensures r.id == b.id && r.sounds == b.sounds
    ensures r.name == (if change.Name? then change.name else b.name)
    ensures r.columns == (if change.Columns? then change.columns else b.columns)
    ensures r.gap == (if change.Gap? then change.gap else b.gap)
  {
    match change
    case Name(n) => b.(name := n)
    case Columns(c) => b.(columns := c)
    case Gap(g) => b.(gap := g)
  }

  // ---------------------------------------------------------------------
  // Properties

  /** Printing a board count: the 12th board is "New Board 12". */
  lemma NewBoardName()
    ensures NewBoard(11, "x").name == "New Board 12"
  {
    assert NatToString(12) == NatToString(1) + ['2'];
  }

  /** Deleting the active board, when more than one board exists and board
      ids are distinct, leaves at least one board, and the first of them
      becomes active. */
  lemma {:induction false} DeleteLeavesABoard(boards: seq<SoundBoard>, id: string)
    requires |boards| > 1
    requires forall i, j :: 0 <= i < j < |boards| ==> boards[i].id != boards[j].id
    ensures RemoveBoard(boards, id) != []
    ensures RemoveBoard(boards, id)[0] in boards && RemoveBoard(boards, id)[0].id != id
    ensures RemoveBoard(boards, id)[0] == if boards[0].id != id then boards[0] else boards[1]
  {
    if boards[0].id != id {
      assert boards[0] in RemoveBoard(boards, id);
    } else {
      assert boards[1].id != id;
      assert boards[1..][0] == boards[1];
      assert boards[1] in RemoveBoard(boards, id);
    }
  }

  /** Saving a sound changes the active board only, and there only the
      entries with the saved id, or it appends the sound. */
  lemma SaveTouchesActiveBoardOnly(boards: seq<SoundBoard>, active: SoundBoard, s: Sound, k: nat)
    requires k < |boards| && boards[k].id != active.id
    ensures ReplaceBoard(boards, active.(sounds := UpsertSound(active.sounds, s)))[k] == boards[k]
  {
  }

  // ---------------------------------------------------------------------
  // The screen

  class Board {
    var boards: seq<SoundBoard>
    var activeBoardId: string
    var isEditMode: bool
    var isLoading: bool
    var isModalOpen: bool
    var editingSound: PartialSound
    /** The signed-in user, from the login state. */
    var user: Option<string>

    constructor(user: Option<string>)
      ensures boards == [] && activeBoardId == "" && !isEditMode && isLoading
      ensures !isModalOpen && editingSound == EmptyPartial && this.user == user
    {
      boards := [];
      activeBoardId := "";
      isEditMode := false;
      isLoading := true;
      isModalOpen := false;
      editingSound := EmptyPartial;
      this.user := user;
    }

    function Active(): Option<SoundBoard>
      reads this
    {
      ActiveBoard(boards, activeBoardId)
    }

    /** The mount effect. `loaded` is what the store returned (`None` when
        loading failed); `defaultSaved` is whether storing the default board
        succeeded. Failures are caught: the list stays as it was. */
    method Init(loaded: Option<seq<SoundBoard>>, defaultSaved: bool)
      modifies this
      ensures loaded == Some([]) && defaultSaved ==> boards == [DefaultBoard] && activeBoardId == DefaultBoard.id
      ensures loaded.Some? && loaded.value != [] ==> boards == loaded.value && activeBoardId == loaded.value[0].id
      ensures loaded.None? || (loaded == Some([]) && !defaultSaved) ==>
                boards == old(boards) && activeBoardId == old(activeBoardId)
      ensures !isLoading
      ensures isEditMode == old(isEditMode) && isModalOpen == old(isModalOpen)
      ensures editingSound == old(editingSound) && user == old(user)
    {
      if loaded.Some? {
        if |loaded.value| == 0 {
          if defaultSaved {
            boards := [DefaultBoard];
            activeBoardId := DefaultBoard.id;
          }
        } else {
          boards := loaded.value;
          activeBoardId := loaded.value[0].id;
        }
      }
      isLoading := false;
    }

    /** `handleCreateBoard`: append a fresh board, select it and enter edit
        mode. */
    method CreateBoard(newId: string, saved: bool)
      modifies this
      ensures saved ==> boards == old(boards) + [NewBoard(|old(boards)|, newId)]
      ensures saved ==> activeBoardId == newId && isEditMode
      ensures saved ==> Active() == Some(NewBoard(|old(boards)|, newId)) ||
                        exists k :: 0 <= k < |old(boards)| && old(boards)[k].id == newId
      ensures !saved ==> boards == old(boards) && activeBoardId == old(activeBoardId) && isEditMode == old(isEditMode)
      ensures isLoading == old(isLoading) && isModalOpen == old(isModalOpen)
      ensures editingSound == old(editingSound) && user == old(user)
    {
      var newBoard := NewBoard(|boards|, newId);
      if !saved {
        return;
      }
      boards := boards + [newBoard];
      activeBoardId := newBoard.id;
      isEditMode := true;
      if forall k :: 0 <= k < |old(boards)| ==> old(boards)[k].id != newId {
        assert FindBoard(boards, newId) == Some(newBoard) by {
          var r := FindBoard(boards, newId);
          var k :| 0 <= k < |boards| && boards[k] == r.value && r.value.id == newId;
        }
      }
    }

    /** `handleDeleteBoard`: refused while at most one board exists;
        otherwise, once confirmed and deleted in the store, the active board
        id leaves the list and the first remaining board becomes active.
        When no board remains (every board had the active id), reading the
        first one throws after the list has been emptied. */
    method DeleteBoard(confirmed: bool, deleted: bool)
      modifies this
      ensures |old(boards)| <= 1 || !confirmed || !deleted ==>
                boards == old(boards) && activeBoardId == old(activeBoardId)
      ensures |old(boards)| > 1 && confirmed && deleted ==>
                boards == RemoveBoard(old(boards), old(activeBoardId))
      ensures |old(boards)| > 1 && confirmed && deleted && boards != [] ==>
                activeBoardId == boards[0].id && Active() == Some(boards[0])
      ensures isEditMode == old(isEditMode) && isLoading == old(isLoading) && isModalOpen == old(isModalOpen)
      ensures editingSound == old(editingSound) && user == old(user)
    {
      if |boards| <= 1 {
        return;
      }
      if !confirmed || !deleted {
        return;
      }
      var remaining := RemoveBoard(boards, activeBoardId);
      boards := remaining;
      if |remaining| == 0 {
        return;
      }
      activeBoardId := remaining[0].id;
      assert boards[0].id == activeBoardId;
    }

    /** `handleUpdateBoardConfig`: the active board with one setting changed
        replaces every board with its id. */
    method UpdateBoardConfig(change: ConfigChange, saved: bool)
      modifies this
      ensures old(Active()).Some? && saved ==> boards == ReplaceBoard(old(boards), ApplyConfig(old(Active()).value, change))
      ensures old(Active()).None? || !saved ==> boards == old(boards)
      ensures activeBoardId == old(activeBoardId) && isEditMode == old(isEditMode) && isLoading == old(isLoading)
      ensures isModalOpen == old(isModalOpen) && editingSound == old(editingSound) && user == old(user)
    {
      var activeBoard := Active();
      if activeBoard.None? || !saved {
        return;
      }
      var updated := ApplyConfig(activeBoard.value, change);
      boards := ReplaceBoard(boards, updated);
    }

    /** `handleAddSound`: open the editor on a record holding only a fresh id. */
    method AddSound(newId: string)
      modifies this
      ensures editingSound == EmptyPartial.(id := Some(newId)) && isModalOpen
      ensures boards == old(boards) && activeBoardId == old(activeBoardId) && isEditMode == old(isEditMode)
      ensures isLoading == old(isLoading) && user == old(user)
    {
      editingSound := EmptyPartial.(id := Some(newId));
      isModalOpen := true;
    }

    /** `handleEditSound`: refused for an admin's sound unless the user is the
        admin; otherwise open the editor on the sound. */
    method EditSound(sound: Sound)
      modifies this
      ensures AdminLocked(sound.createdBy, user) ==>
                editingSound == old(editingSound) && isModalOpen == old(isModalOpen)
      ensures !AdminLocked(sound.createdBy, user) ==> editingSound == ToPartial(sound) && isModalOpen
      ensures boards == old(boards) && activeBoardId == old(activeBoardId) && isEditMode == old(isEditMode)
      ensures isLoading == old(isLoading) && user == old(user)
    {
      if AdminLocked(sound.createdBy, user) {
        return;
      }
      editingSound := ToPartial(sound);
      isModalOpen := true;
    }

    /** `handleDeleteSound`: refused when the first sound with the id is an
        admin's and the user is not the admin; otherwise every sound with the
        id leaves the active board. */
    method DeleteSound(soundId: string, deleted: bool)
      modifies this
      ensures var a := old(Active());
        a.Some? && deleted && !(FindSound(a.value.sounds, soundId).Some? &&
                                AdminLocked(FindSound(a.value.sounds, soundId).value.createdBy, user)) ==>
          boards == ReplaceBoard(old(boards), a.value.(sounds := DeleteSoundById(a.value.sounds, soundId)))
      ensures var a := old(Active());
        a.None? || !deleted || (FindSound(a.value.sounds, soundId).Some? &&
                                AdminLocked(FindSound(a.value.sounds, soundId).value.createdBy, user)) ==>
          boards == old(boards)
      ensures activeBoardId == old(activeBoardId) && isEditMode == old(isEditMode) && isLoading == old(isLoading)
      ensures isModalOpen == old(isModalOpen) && editingSound == old(editingSound) && user == old(user)
    {
      var activeBoard := Active();
      if activeBoard.None? {
        return;
      }
      var soundToDelete := FindSound(activeBoard.value.sounds, soundId);
      if soundToDelete.Some? && AdminLocked(soundToDelete.value.createdBy, user) {
        return;
      }
      if !deleted {
        return;
      }
      var updatedSounds := DeleteSoundById(activeBoard.value.sounds, soundId);
      var updatedBoard := activeBoard.value.(sounds := updatedSounds);
      boards := ReplaceBoard(boards, updatedBoard);
    }

    /** `handleSaveSound`: fill in the defaults, store the sound, upsert it on
        the active board and close the editor. */
    method SaveSound(soundData: PartialSound, freshId: string, saved: bool)
      modifies this
      ensures var a := old(Active());
        a.Some? && saved ==>
          && boards == ReplaceBoard(old(boards),
                a.value.(sounds := UpsertSound(a.value.sounds, NormalizeSound(soundData, freshId, user))))
          && !isModalOpen
      ensures old(Active()).None? || !saved ==> boards == old(boards) && isModalOpen == old(isModalOpen)
      ensures activeBoardId == old(activeBoardId) && isEditMode == old(isEditMode) && isLoading == old(isLoading)
      ensures editingSound == old(editingSound) && user == old(user)
    {
      var activeBoard := Active();
      if activeBoard.None? {
        return;
      }
      var newSound := NormalizeSound(soundData, freshId, user);
      if !saved {
        return;
      }
      var updatedSounds := UpsertSound(activeBoard.value.sounds, newSound);
      var updatedBoard := activeBoard.value.(sounds := updatedSounds);
      boards := ReplaceBoard(boards, updatedBoard);
      isModalOpen := false;
    }
  }
}
