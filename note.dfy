/**
 * The note record (src/note.rs) and the track shape the core works on.
 * A track is an ordered sequence of phrases, each an ordered sequence of notes.
 */
module Notes {
  import opened Wrappers
  import opened Numeric

  /** A note: its length in milliseconds, its pitch in semitones relative to A4, and its lyric. */
  datatype Note = Note(length: Uint32, pitch: Int8, voiced: bool, lyric: string)

  /** `Note::new` stores each argument in the field of the same name. */
  function NewNote(length: Uint32, pitch: Int8, voiced: bool, lyric: string): (n: Note)
    ensures n.length == length && n.pitch == pitch
    ensures n.voiced == voiced && n.lyric == lyric
    ensures -128 <= n.pitch <= 127
  {
    Note(length, pitch, voiced, lyric)
  }

  type Phrase = seq<Note>

  /** A track: phrases in temporal order. */
  datatype Track = Track(phrases: seq<Phrase>) {

    /** `get_phrase(i)`: the phrase at `i`, or `None` past the end. */
    function GetPhrase(i: nat): (r: Option<Phrase>)
      ensures r.Some? <==> i < |phrases|
      ensures r.Some? ==> r.value == phrases[i]
    {
      if i < |phrases| then Some(phrases[i]) else None
    }
  }
}
