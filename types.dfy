/** Records shared by every component of the soundboard: a sound clip, a board
    of clips, and the optional ("partial") form of a clip that the editor hands
    to the board view. */
module Types {

  datatype Option<+T> = None | Some(value: T)

  /** One byte of an encoded file. */
  type byte = b: int | 0 <= b < 256

  /** An immutable binary payload (a browser Blob). */
  type Blob = seq<byte>

  /** Where a clip came from. */
  datatype SourceKind = Upload | Mic | Ai

  datatype Sound = Sound(
    id: string,
    name: string,
    source: SourceKind,
    blob: Option<Blob>,
    color: string,
    icon: Option<string>,
    volume: real,
    loop: bool,
    shortcut: Option<string>,
    createdBy: Option<string>)

  datatype SoundBoard = SoundBoard(
    id: string,
    name: string,
    columns: int,
    gap: int,
    sounds: seq<Sound>)

  /** A decoded clip (a Web Audio AudioBuffer): `channelData[c][p]` is the
      sample of channel `c` at frame `p`, nominally in [-1, 1]. */
  datatype AudioBuffer = AudioBuffer(sampleRate: nat, length: nat, channelData: seq<seq<real>>)
  {
    /** Every channel holds exactly `length` frames. */
    predicate Valid() {
      forall c :: 0 <= c < |channelData| ==> |channelData[c]| == length
    }
  }

  /** A sound record in which every field may be absent. */
  datatype PartialSound = PartialSound(
    id: Option<string>,
    name: Option<string>,
    source: Option<SourceKind>,
    blob: Option<Blob>,
    color: Option<string>,
    icon: Option<string>,
    volume: Option<real>,
    loop: Option<bool>,
    shortcut: Option<string>,
    createdBy: Option<string>)

  /** The record with no field set (`{}`). */
  const EmptyPartial := PartialSound(None, None, None, None, None, None, None, None, None, None)

  /** Every field of a full sound, as a partial record. */
  function ToPartial(s: Sound): PartialSound
  {
    PartialSound(Some(s.id), Some(s.name), Some(s.source), s.blob, Some(s.color), s.icon,
                 Some(s.volume), Some(s.loop), s.shortcut, s.createdBy)
  }

  /** A string in a JavaScript `a || b` position: absent and empty are both falsy. */
  predicate Truthy(o: Option<string>) {
    o.Some? && o.value != ""
  }

  /** `o || d` for an optional string. */
  function StrOr(o: Option<string>, d: string): string
  {
    if Truthy(o) then o.value else d
  }

  /** `a?.createdBy === 'admin' && user !== 'admin'`: the role check that keeps
      non-admin users away from clips an admin created. */
  function AdminLocked(createdBy: Option<string>, user: Option<string>): (r: bool)
    ensures user == Some("admin") ==> !r
    ensures createdBy != Some("admin") ==> !r
    ensures createdBy == Some("admin") && user != Some("admin") ==> r
  {
    createdBy == Some("admin") && user != Some("admin")
  }

  /** `boards.find(b => b.id === id)`. */
  function FindBoard(boards: seq<SoundBoard>, id: string): (r: Option<SoundBoard>)
    ensures r.Some? <==> exists k :: 0 <= k < |boards| && boards[k].id == id
    ensures r.Some? ==> r.value in boards && r.value.id == id
    ensures r.Some? ==> exists k :: 0 <= k < |boards| && boards[k] == r.value &&
                                    forall m :: 0 <= m < k ==> boards[m].id != id
  {
    if boards == [] then None
    else if boards[0].id == id then Some(boards[0])
    else
      var r := FindBoard(boards[1..], id);
      if r.Some? then
        var k :| 0 <= k < |boards| - 1 && boards[1..][k] == r.value &&
          forall m :: 0 <= m < k ==> boards[1..][m].id != id;
        assert boards[k + 1] == r.value;
        assert forall m :: 0 <= m < k + 1 ==> boards[m].id != id by {
          forall m | 0 <= m < k + 1 ensures boards[m].id != id {
            if m > 0 { assert boards[m] == boards[1..][m - 1]; }
          }
        }
        r
      else
        assert forall k :: 1 <= k < |boards| ==> boards[k] == boards[1..][k - 1];
        r
  }
}
