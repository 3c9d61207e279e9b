/** The one fact of the storage client that the rest of the soundboard depends
    on: saving a board sends its metadata only. Sounds are stored one by one
    through their own call. */
module Db {
  import opened Types

  /** The body of a board save: every field of the board except `sounds`. */
  datatype BoardMeta = BoardMeta(id: string, name: string, columns: int, gap: int)

  /** `saveBoard`'s request body. */
  function BoardPayload(b: SoundBoard): (r: BoardMeta)
    ensures r.id == b.id && r.name == b.name && r.columns == b.columns && r.gap == b.gap
  {
    BoardMeta(b.id, b.name, b.columns, b.gap)
  }

  /** Two boards that differ only in their sounds send the same request, so a
      sound appended to a board is not stored by saving the board. */
  lemma PayloadIgnoresSounds(b: SoundBoard, sounds: seq<Sound>)
    ensures BoardPayload(b.(sounds := sounds)) == BoardPayload(b)
  {
  }

  /** The payload determines every field of the board but its sounds. */
  lemma PayloadKeepsMetadata(a: SoundBoard, b: SoundBoard)
    ensures BoardPayload(a) == BoardPayload(b) <==> a.(sounds := b.sounds) == b
  {
  }
}
