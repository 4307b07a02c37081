/**
 * The playback session (src/song_panel.rs): the chunk scheduler that cuts each
 * note of the backing track into analysis windows of at most about 20 ms, the
 * chunk -> note -> phrase cursor, the readiness gate, and the tick that
 * consumes microphone windows and appends the sung notes to the sung track.
 */
module SongPanel {
  import opened Wrappers
  import opened Notes
  import opened Time
  import opened Mic
  import opened Numeric
  import FrameSplitting

  const MAX_WINDOW_LENGTH: nat := 20

  // ------------------------------------------------------- chunk splitting

  /**
   * The chunk count as `split_into_chunks` computes it in `u32` in a release
   * build: `(num + 20 - 1) / 20`, the addition of 20 and then the subtraction
   * of 1 each wrapping. For the 19 largest values the sum wraps below 20 and
   * the count is 0; for `2^32 - 20` the sum wraps to 0 and the subtraction
   * back to `2^32 - 1`, so the count is right. (A debug build panics at the
   * addition for each of the 20 largest values instead.)
   */
  function ChunkCountAsWritten(num: Uint32): (k: Uint32)
    ensures num + MAX_WINDOW_LENGTH - 1 < U32_LIMIT ==> k == ChunkCount(num)
    ensures num + MAX_WINDOW_LENGTH - 1 >= U32_LIMIT ==> k == 0
  {
    var sum := (num + MAX_WINDOW_LENGTH) % U32_LIMIT;
    ((sum + U32_LIMIT - 1) % U32_LIMIT) / MAX_WINDOW_LENGTH
  }

  /** For `num = 2^32 - 1`, `num + 20 - 1` wraps to 18, the count is 0, and `num % k` divides by zero. */
  lemma ChunkCountAsWrittenWraps()
    ensures ChunkCountAsWritten(U32_LIMIT - 1) == 0
  {
  }

  /** The number of chunks of a note of `num` ms, `ceil(num / 20)`, without the wrap-around. */
  function ChunkCount(num: nat): (k: nat)
    ensures (k - 1) * MAX_WINDOW_LENGTH < num <= k * MAX_WINDOW_LENGTH || (num == 0 && k == 0)
    ensures num >= 1 ==> 1 <= k <= num
  {
    (num + MAX_WINDOW_LENGTH - 1) / MAX_WINDOW_LENGTH
  }

  /** Below the wrap-around the count as written is the intended one. */
  lemma ChunkCountAgrees(num: Uint32)
    requires num + MAX_WINDOW_LENGTH - 1 < U32_LIMIT
    ensures ChunkCountAsWritten(num) == ChunkCount(num)
  {
  }

  /** The chunks of a note of `num` ms: `k` equal parts, the remainder added to the first. */
  function Chunks(num: nat): (r: seq<nat>)
    requires num >= 1
  {
    var k := ChunkCount(num);
    seq(k, i => if i == 0 then num / k + num % k else num / k)
  }

  /**
   * `split_into_chunks` fills a vector with the quotient and then adds the
   * remainder to its first slot. A length of 0, or one of the 19 largest `u32`
   * values, makes the count 0 and `num % k` panic, so neither may be passed.
   */
  method SplitIntoChunks(num: Uint32) returns (chunks: seq<nat>)
    requires 1 <= num && num + MAX_WINDOW_LENGTH - 1 < U32_LIMIT
    ensures chunks == Chunks(num)
  {
    var k := ChunkCountAsWritten(num);
    var remainder := num % k;
    var v := new nat[k](_ => num / k);
    v[0] := v[0] + remainder;
    chunks := v[..];
  }

  function Sum(s: seq<nat>): (total: nat) {
    if s == [] then 0 else s[0] + Sum(s[1..])
  }

  lemma {:induction false} SumOfConstant(s: seq<nat>, c: nat)
    requires forall i :: 0 <= i < |s| ==> s[i] == c
    ensures Sum(s) == |s| * c
  {
    if s != [] {
      SumOfConstant(s[1..], c);
    }
  }

  /** The chunks of a note add up to exactly its length. */
  lemma ChunksSum(num: nat)
    requires num >= 1
    ensures Sum(Chunks(num)) == num
  {
    var k := ChunkCount(num);
    var r := Chunks(num);
    SumOfConstant(r[1..], num / k);
    assert Sum(r) == num / k + num % k + (k - 1) * (num / k);
    assert (k - 1) * (num / k) + num / k == k * (num / k);
  }

  /** `ceil(num / 20)` chunks; every chunk after the first is the quotient, the first also holds the remainder. */
  lemma ChunksShape(num: nat)
    requires num >= 1
    ensures var r := Chunks(num);
            && |r| == ChunkCount(num)
            && (|r| - 1) * MAX_WINDOW_LENGTH < num <= |r| * MAX_WINDOW_LENGTH
            && r[0] == num / |r| + num % |r|
            && forall i :: 1 <= i < |r| ==> r[i] == num / |r|
  {
  }

  /** Every chunk is at least 1 ms and at most the note; every chunk after the first is at most 20 ms. */
  lemma ChunkBounds(num: nat)
    requires num >= 1
    ensures var r := Chunks(num);
            && (forall i :: 0 <= i < |r| ==> 1 <= r[i] <= num)
            && (forall i :: 1 <= i < |r| ==> r[i] <= MAX_WINDOW_LENGTH)
  {
    var k := ChunkCount(num);
    QuotientAtLeastOne(num, k);
    QuotientAtMost(num, k, MAX_WINDOW_LENGTH);
    assert num / k + num % k <= num by {
      assert k * (num / k) + num % k == num;
      MulAtLeast(num / k, k);
    }
  }

  lemma QuotientAtLeastOne(num: nat, k: nat)
    requires 1 <= k <= num
    ensures num / k >= 1
  {
  }

  lemma QuotientAtMost(num: nat, k: nat, m: nat)
    requires k >= 1 && num <= k * m
    ensures num / k <= m
  {
    if num / k > m {
      MulAtLeast(k, num / k - m);
    }
  }

  /** `Chunks` on notes of 45, 50 and 199 ms; the last has a first chunk longer than 20 ms. */
  lemma ChunkExamples()
    ensures Chunks(45) == [15, 15, 15]
    ensures Chunks(50) == [18, 16, 16]
    ensures Chunks(199)[0] == 28
  {
  }

  // ------------------------------------------------------ the sung track

  datatype State = Playing | Paused | Finished

  /**
   * A backing track the session can play to the end: at least one phrase, no
   * empty phrase, and no note of zero length or of one of the 19 largest `u32`
   * lengths (each of these makes the source panic when the cursor reaches it).
   */
  ghost predicate WellFormedBacking(backing: Track) {
    && |backing.phrases| > 0
    && forall p :: 0 <= p < |backing.phrases| ==>
         && |backing.phrases[p]| > 0
         && forall n :: 0 <= n < |backing.phrases[p]| ==>
              1 <= backing.phrases[p][n].length && backing.phrases[p][n].length + MAX_WINDOW_LENGTH - 1 < U32_LIMIT
  }

  /** The chunks in the first `count` notes of a phrase. */
  function ChunksBefore(phrase: Phrase, count: nat): (chunks: nat)
    requires count <= |phrase|
  {
    if count == 0 then 0 else ChunksBefore(phrase, count - 1) + ChunkCount(phrase[count - 1].length)
  }

  /**
   * The sung track mirrors the cursor: one sung note per chunk consumed. Every
   * phrase before the cursor's is complete (one sung note per chunk of every
   * backing note), and the cursor's phrase, once started, holds one note per
   * chunk before the cursor.
   */
  ghost predicate SungMirrors(backing: Track, sung: seq<Phrase>, p: nat, n: nat, c: nat) {
    && p <= |backing.phrases|
    && p <= |sung| <= p + 1
    && (forall q :: 0 <= q < p ==> |sung[q]| == ChunksBefore(backing.phrases[q], |backing.phrases[q]|))
    && (|sung| == p + 1 ==>
          p < |backing.phrases| && n <= |backing.phrases[p]|
          && |sung[p]| == ChunksBefore(backing.phrases[p], n) + c)
    && (|sung| == p ==> n == 0 && c == 0)
  }

  /** The total length of the notes of a phrase, in ms. */
  function NotesLength(notes: seq<Note>): (total: nat) {
    if notes == [] then 0 else NotesLength(notes[..|notes| - 1]) + notes[|notes| - 1].length
  }

  /** The total length of the notes of a track, in ms. */
  function PhrasesLength(phrases: seq<Phrase>): (total: nat) {
    if phrases == [] then 0 else PhrasesLength(phrases[..|phrases| - 1]) + NotesLength(phrases[|phrases| - 1])
  }

  /** Every sung note is voiced and has no lyric. */
  ghost predicate AllVoiced(phrases: seq<Phrase>) {
    forall p, n :: 0 <= p < |phrases| && 0 <= n < |phrases[p]| ==>
      phrases[p][n].voiced && phrases[p][n].lyric == ""
  }

  /** `phrases[p].push(x)`, after pushing an empty phrase if `p` is one past the end. */
  function AppendSung(phrases: seq<Phrase>, p: nat, x: Note): (r: seq<Phrase>)
    requires p <= |phrases|
    ensures |r| == if p == |phrases| then p + 1 else |phrases|
    ensures r[p] == (if p == |phrases| then [] else phrases[p]) + [x]
    ensures forall q :: 0 <= q < |r| && q != p ==> r[q] == phrases[q]
  {
    var grown := if p >= |phrases| then phrases + [[]] else phrases;
    grown[p := grown[p] + [x]]
  }

  lemma NotesLengthAppend(notes: seq<Note>, x: Note)
    ensures NotesLength(notes + [x]) == NotesLength(notes) + x.length
  {
    assert (notes + [x])[..|notes|] == notes;
  }

  lemma PhrasesLengthAppend(phrases: seq<Phrase>, last: Phrase)
    ensures PhrasesLength(phrases + [last]) == PhrasesLength(phrases) + NotesLength(last)
  {
    assert (phrases + [last])[..|phrases|] == phrases;
  }

  /**
   * At the last phrase or one past it, `AppendSung` keeps the phrases before
   * `p` and ends with the phrase at `p` (empty when new) with `x` appended.
   */
  lemma AppendSungAtEnd(phrases: seq<Phrase>, p: nat, x: Note)
    requires |phrases| == p + 1 || |phrases| == p
    ensures AppendSung(phrases, p, x) == phrases[..p] + [(if |phrases| == p then [] else phrases[p]) + [x]]
    ensures |phrases| == p + 1 ==> phrases == phrases[..p] + [phrases[p]]
  {
  }

  /** Appending to the last phrase adds the note's length to the track's length. */
  lemma AppendSungLength(phrases: seq<Phrase>, p: nat, x: Note)
    requires |phrases| == p + 1 || |phrases| == p
    ensures PhrasesLength(AppendSung(phrases, p, x)) == PhrasesLength(phrases) + x.length
  {
    var last := if |phrases| == p then [] else phrases[p];
    AppendSungAtEnd(phrases, p, x);
    PhrasesLengthAppend(phrases[..p], last + [x]);
    NotesLengthAppend(last, x);
    if |phrases| == p + 1 {
      PhrasesLengthAppend(phrases[..p], last);
    } else {
      assert phrases[..p] == phrases;
    }
  }

  /** Appending a voiced, lyric-less note keeps every sung note voiced and lyric-less. */
  lemma AppendSungVoiced(phrases: seq<Phrase>, p: nat, x: Note)
    requires p <= |phrases| && AllVoiced(phrases) && x.voiced && x.lyric == ""
    ensures AllVoiced(AppendSung(phrases, p, x))
  {
    var r: seq<Phrase> := AppendSung(phrases, p, x);
    forall q: nat, n: nat | q < |r| && n < |r[q]|
      ensures r[q][n].voiced && r[q][n].lyric == ""
    {
      if q == p && n < |r[p]| - 1 {
        assert r[p][n] == phrases[p][n];
      }
    }
  }

  /**
   * `(p', n', c')` is one chunk after `(p, n, c)`: the next chunk of the note,
   * past its last chunk the first of the next note, and past the phrase's
   * last note the first of the next phrase.
   */
  ghost predicate NextCursor(backing: Track, p: nat, n: nat, c: nat, p': nat, n': nat, c': nat)
    requires p < |backing.phrases| && n < |backing.phrases[p]|
  {
    var k := ChunkCount(backing.phrases[p][n].length);
    && (c + 1 < k ==> p' == p && n' == n && c' == c + 1)
    && (c + 1 >= k && n + 1 < |backing.phrases[p]| ==> p' == p && n' == n + 1 && c' == 0)
    && (c + 1 >= k && n + 1 >= |backing.phrases[p]| ==> p' == p + 1 && n' == 0 && c' == 0)
  }

  /**
   * One pass of the tick loop keeps the sung track mirroring the cursor:
   * one sung note appended at the cursor's phrase, then the cursor advanced
   * by one chunk (to the next chunk, the next note, or the next phrase).
   */
  lemma {:induction false} MirrorsAfterStep(backing: Track, sung: seq<Phrase>, p: nat, n: nat, c: nat, x: Note,
                                            p': nat, n': nat, c': nat)
    requires WellFormedBacking(backing)
    requires p < |backing.phrases| && n < |backing.phrases[p]|
    requires c < ChunkCount(backing.phrases[p][n].length)
    requires SungMirrors(backing, sung, p, n, c)
    requires NextCursor(backing, p, n, c, p', n', c')
    ensures SungMirrors(backing, AppendSung(sung, p, x), p', n', c')
  {
    var r := AppendSung(sung, p, x);
    var phrase := backing.phrases[p];
    var k := ChunkCount(phrase[n].length);
    assert |r| == p + 1;
    assert |r[p]| == ChunksBefore(phrase, n) + c + 1;
    if c + 1 < k {
    } else if n + 1 < |phrase| {
      assert ChunksBefore(phrase, n + 1) == ChunksBefore(phrase, n) + k;
    } else {
      assert ChunksBefore(phrase, n + 1) == ChunksBefore(phrase, n) + k;
      assert |r[p]| == ChunksBefore(phrase, |phrase|);
      forall q | 0 <= q < p + 1
        ensures |r[q]| == ChunksBefore(backing.phrases[q], |backing.phrases[q]|)
      {
      }
    }
  }

  /**
   * At the end of the backing track the sung track has one phrase per backing
   * phrase, and each holds one sung note per chunk of that phrase's notes.
   */
  lemma FinishedSungShape(backing: Track, sung: seq<Phrase>)
    requires SungMirrors(backing, sung, |backing.phrases|, 0, 0)
    ensures |sung| == |backing.phrases|
    ensures forall q :: 0 <= q < |sung| ==> |sung[q]| == ChunksBefore(backing.phrases[q], |backing.phrases[q]|)
  {
  }

  /** A backing note no longer than 20 ms yields exactly one sung note. */
  lemma ShortNotesOneChunk(phrase: Phrase, count: nat)
    requires count <= |phrase|
    requires forall n :: 0 <= n < |phrase| ==> 1 <= phrase[n].length <= MAX_WINDOW_LENGTH
    ensures ChunksBefore(phrase, count) == count
  {
  }

  /** Every backing note yields at least one sung note. */
  lemma {:induction false} ChunksAtLeastNotes(phrase: Phrase, count: nat)
    requires count <= |phrase|
    requires forall n :: 0 <= n < |phrase| ==> 1 <= phrase[n].length
    ensures ChunksBefore(phrase, count) >= count
  {
    if count > 0 {
      ChunksAtLeastNotes(phrase, count - 1);
    }
  }

  /** A backing note longer than 20 ms yields more sung notes than there are backing notes. */
  lemma {:induction false} LongNoteMoreChunks(phrase: Phrase, count: nat, m: nat)
    requires count <= |phrase| && m < count
    requires forall n :: 0 <= n < |phrase| ==> 1 <= phrase[n].length
    requires phrase[m].length > MAX_WINDOW_LENGTH
    ensures ChunksBefore(phrase, count) > count
  {
    ChunksAtLeastNotes(phrase, count - 1);
    if m < count - 1 {
      LongNoteMoreChunks(phrase, count - 1, m);
    }
  }

  /** The chunk lengths of the first `count` notes of a phrase, in order. */
  function PhraseChunks(phrase: Phrase, count: nat): (chunks: seq<nat>)
    requires count <= |phrase|
    requires forall n :: 0 <= n < |phrase| ==> phrase[n].length >= 1
    ensures |chunks| == ChunksBefore(phrase, count)
  {
    if count == 0 then [] else PhraseChunks(phrase, count - 1) + Chunks(phrase[count - 1].length)
  }

  /** The lengths of notes, in order. */
  function Lengths(notes: seq<Note>): (lengths: seq<nat>)
    ensures |lengths| == |notes|
    ensures forall i :: 0 <= i < |notes| ==> lengths[i] == notes[i].length
  {
    if notes == [] then [] else Lengths(notes[..|notes| - 1]) + [notes[|notes| - 1].length]
  }

  /**
   * The microphone windows the sung phrase `q` is sung with, for the chunks
   * it stands for: each chunk's own length, except that the very first note
   * of the track is sung with the initial window.
   */
  function Windows(q: nat, chunks: seq<nat>): (windows: seq<nat>)
    ensures |windows| == |chunks|
  {
    if q == 0 && chunks != [] then [INITIAL_WINDOW_MS] + chunks[1..] else chunks
  }

  /** Every sung phrase before `p` was sung with the windows of all its chunks. */
  ghost predicate PhrasesSung(backing: Track, sung: seq<Phrase>, p: nat) {
    && WellFormedBacking(backing)
    && p <= |backing.phrases| && p <= |sung|
    && forall q {:trigger Lengths(sung[q])} :: 0 <= q < p ==>
         Lengths(sung[q]) == Windows(q, PhraseChunks(backing.phrases[q], |backing.phrases[q]|))
  }

  /** The cursor's sung phrase, once started, was sung with the windows of its chunks before the cursor. */
  ghost predicate CursorPhraseSung(backing: Track, sung: seq<Phrase>, p: nat, n: nat, c: nat)
    requires WellFormedBacking(backing)
  {
    |sung| > p ==>
      && p < |backing.phrases| && n < |backing.phrases[p]|
      && c <= ChunkCount(backing.phrases[p][n].length)
      && sung[p] != []
      && Lengths(sung[p]) == Windows(p, PhraseChunks(backing.phrases[p], n) + Chunks(backing.phrases[p][n].length)[..c])
  }

  /**
   * The lengths of the sung notes follow the cursor: every phrase before the
   * cursor's was sung with the windows of all its chunks, and the cursor's
   * phrase, once started, with the windows of its chunks before the cursor.
   */
  ghost predicate SungWindows(backing: Track, sung: seq<Phrase>, p: nat, n: nat, c: nat) {
    PhrasesSung(backing, sung, p) && CursorPhraseSung(backing, sung, p, n, c)
  }

  /** Appending at the cursor's phrase leaves the finished phrases as they were. */
  lemma PhrasesSungKept(backing: Track, sung: seq<Phrase>, p: nat, x: Note)
    requires PhrasesSung(backing, sung, p) && |sung| <= p + 1
    ensures PhrasesSung(backing, AppendSung(sung, p, x), p)
  {
    var r := AppendSung(sung, p, x);
    forall q | 0 <= q < p
      ensures r[q] == sung[q]
    {
    }
  }

  /** A sung phrase with the windows of all its chunks is one more finished phrase. */
  lemma PhrasesSungGrow(backing: Track, sung: seq<Phrase>, p: nat)
    requires PhrasesSung(backing, sung, p) && p < |backing.phrases| && p < |sung|
    requires Lengths(sung[p]) == Windows(p, PhraseChunks(backing.phrases[p], |backing.phrases[p]|))
    ensures PhrasesSung(backing, sung, p + 1)
  {
  }

  /** Appending a note appends its length. */
  lemma LengthsAppend(notes: seq<Note>, x: Note)
    ensures Lengths(notes + [x]) == Lengths(notes) + [x.length]
  {
    assert (notes + [x])[..|notes|] == notes;
  }

  /** Past the track's first note, one more chunk is sung with its own length. */
  lemma WindowsAppend(q: nat, chunks: seq<nat>, e: nat)
    requires q != 0 || chunks != []
    ensures Windows(q, chunks + [e]) == Windows(q, chunks) + [e]
  {
    if q == 0 {
      assert (chunks + [e])[1..] == chunks[1..] + [e];
    }
  }

  /** A note sung with the window of one more chunk extends the phrase's windows by it. */
  lemma WindowsExtend(q: nat, chunks: seq<nat>, e: nat, last: seq<Note>, x: Note)
    requires Lengths(last) == Windows(q, chunks)
    requires x.length == if q == 0 && chunks == [] then INITIAL_WINDOW_MS else e
    ensures Lengths(last + [x]) == Windows(q, chunks + [e])
  {
    LengthsAppend(last, x);
    if q != 0 || chunks != [] {
      WindowsAppend(q, chunks, e);
    } else {
      assert [] + [e] == [e];
    }
  }

  /** The chunks up to and including the cursor's, and past a note's last chunk, all of that note's. */
  lemma ChunksThroughCursor(phrase: Phrase, n: nat, c: nat)
    requires n < |phrase| && forall m :: 0 <= m < |phrase| ==> phrase[m].length >= 1
    requires c < ChunkCount(phrase[n].length)
    ensures var ch := Chunks(phrase[n].length);
            && PhraseChunks(phrase, n) + ch[..c] + [ch[c]] == PhraseChunks(phrase, n) + ch[..c + 1]
            && (c + 1 == |ch| ==> PhraseChunks(phrase, n) + ch[..c + 1] == PhraseChunks(phrase, n + 1))
  {
    var ch := Chunks(phrase[n].length);
    assert ch[..c] + [ch[c]] == ch[..c + 1];
    assert c + 1 == |ch| ==> ch[..c + 1] == ch;
  }

  /**
   * One pass of the tick loop keeps the sung lengths following the cursor:
   * the note appended is as long as the microphone window, which is the
   * initial window before the first note and the current chunk after it.
   */
  lemma {:induction false} WindowsAfterStep(backing: Track, sung: seq<Phrase>, p: nat, n: nat, c: nat, x: Note,
                                            p': nat, n': nat, c': nat)
    requires WellFormedBacking(backing)
    requires p < |backing.phrases| && n < |backing.phrases[p]|
    requires c < ChunkCount(backing.phrases[p][n].length)
    requires p <= |sung| <= p + 1 && (|sung| == p ==> n == 0 && c == 0)
    requires SungWindows(backing, sung, p, n, c)
    requires x.length == if sung == [] then INITIAL_WINDOW_MS else Chunks(backing.phrases[p][n].length)[c]
    requires NextCursor(backing, p, n, c, p', n', c')
    ensures SungWindows(backing, AppendSung(sung, p, x), p', n', c')
  {
    CursorPhraseAppend(backing, sung, p, n, c, x);
    PhrasesSungKept(backing, sung, p, x);
    CursorAdvance(backing, AppendSung(sung, p, x), p, n, c, p', n', c');
  }

  /** The note appended at the cursor's phrase is sung with the window of the cursor's chunk. */
  lemma CursorPhraseAppend(backing: Track, sung: seq<Phrase>, p: nat, n: nat, c: nat, x: Note)
    requires WellFormedBacking(backing)
    requires p < |backing.phrases| && n < |backing.phrases[p]|
    requires c < ChunkCount(backing.phrases[p][n].length)
    requires p <= |sung| <= p + 1 && (|sung| == p ==> n == 0 && c == 0)
    requires SungWindows(backing, sung, p, n, c)
    requires x.length == if sung == [] then INITIAL_WINDOW_MS else Chunks(backing.phrases[p][n].length)[c]
    ensures var r := AppendSung(sung, p, x);
            var ch := Chunks(backing.phrases[p][n].length);
            && |r| == p + 1 && r[p] != []
            && Lengths(r[p]) == Windows(p, PhraseChunks(backing.phrases[p], n) + ch[..c + 1])
  {
    var phrase := backing.phrases[p];
    var ch := Chunks(phrase[n].length);
    var sofar := PhraseChunks(phrase, n) + ch[..c];
    var last: Phrase := if |sung| == p then [] else sung[p];
    assert |sung| == p ==> sofar == [];
    assert Lengths(last) == Windows(p, sofar);
    assert sung == [] <==> p == 0 && sofar == [];
    WindowsExtend(p, sofar, ch[c], last, x);
    ChunksThroughCursor(phrase, n, c);
    assert AppendSung(sung, p, x)[p] == last + [x];
  }

  /**
   * With the cursor's chunk sung, the cursor's step to the next chunk, the
   * next note or the next phrase keeps the sung lengths following it.
   */
  lemma CursorAdvance(backing: Track, sung: seq<Phrase>, p: nat, n: nat, c: nat, p': nat, n': nat, c': nat)
    requires PhrasesSung(backing, sung, p)
    requires p < |backing.phrases| && n < |backing.phrases[p]|
    requires c < ChunkCount(backing.phrases[p][n].length)
    requires |sung| == p + 1 && sung[p] != []
    requires Lengths(sung[p]) == Windows(p, PhraseChunks(backing.phrases[p], n) + Chunks(backing.phrases[p][n].length)[..c + 1])
    requires NextCursor(backing, p, n, c, p', n', c')
    ensures SungWindows(backing, sung, p', n', c')
  {
    var phrase := backing.phrases[p];
    if c + 1 < ChunkCount(phrase[n].length) {
      AdvanceChunk(backing, sung, p, n, c, p', n', c');
    } else if n + 1 < |phrase| {
      AdvanceNote(backing, sung, p, n, c, p', n', c');
    } else {
      AdvancePhrase(backing, sung, p, n, c, p', n', c');
    }
  }

  /** The step to the next chunk of the same note. */
  lemma AdvanceChunk(backing: Track, sung: seq<Phrase>, p: nat, n: nat, c: nat, p': nat, n': nat, c': nat)
    requires PhrasesSung(backing, sung, p)
    requires p < |backing.phrases| && n < |backing.phrases[p]|
    requires c + 1 < ChunkCount(backing.phrases[p][n].length)
    requires |sung| == p + 1 && sung[p] != []
    requires Lengths(sung[p]) == Windows(p, PhraseChunks(backing.phrases[p], n) + Chunks(backing.phrases[p][n].length)[..c + 1])
    requires NextCursor(backing, p, n, c, p', n', c')
    ensures SungWindows(backing, sung, p', n', c')
  {
    assert p' == p && n' == n && c' == c + 1;
  }

  /** The step past a note's last chunk to the first chunk of the next note. */
  lemma AdvanceNote(backing: Track, sung: seq<Phrase>, p: nat, n: nat, c: nat, p': nat, n': nat, c': nat)
    requires PhrasesSung(backing, sung, p)
    requires p < |backing.phrases| && n + 1 < |backing.phrases[p]|
    requires c + 1 == ChunkCount(backing.phrases[p][n].length)
    requires |sung| == p + 1 && sung[p] != []
    requires Lengths(sung[p]) == Windows(p, PhraseChunks(backing.phrases[p], n) + Chunks(backing.phrases[p][n].length)[..c + 1])
    requires NextCursor(backing, p, n, c, p', n', c')
    ensures SungWindows(backing, sung, p', n', c')
  {
    var phrase := backing.phrases[p];
    assert p' == p && n' == n + 1 && c' == 0;
    ChunksThroughCursor(phrase, n, c);
    assert PhraseChunks(phrase, n + 1) == PhraseChunks(phrase, n + 1) + Chunks(phrase[n + 1].length)[..0];
  }

  /** The step past a phrase's last chunk to the next phrase. */
  lemma AdvancePhrase(backing: Track, sung: seq<Phrase>, p: nat, n: nat, c: nat, p': nat, n': nat, c': nat)
    requires PhrasesSung(backing, sung, p)
    requires p < |backing.phrases| && n + 1 == |backing.phrases[p]|
    requires c + 1 == ChunkCount(backing.phrases[p][n].length)
    requires |sung| == p + 1 && sung[p] != []
    requires Lengths(sung[p]) == Windows(p, PhraseChunks(backing.phrases[p], n) + Chunks(backing.phrases[p][n].length)[..c + 1])
    requires NextCursor(backing, p, n, c, p', n', c')
    ensures SungWindows(backing, sung, p', n', c')
  {
    assert p' == p + 1 && n' == 0 && c' == 0;
    ChunksThroughCursor(backing.phrases[p], n, c);
    PhrasesSungGrow(backing, sung, p);
  }

  /**
   * One pass of the tick loop, appending the note sung with the current
   * window and stepping the cursor by one chunk, keeps the sung track both
   * mirroring the cursor and following it in its lengths.
   */
  lemma SungAfterStep(backing: Track, sung: seq<Phrase>, p: nat, n: nat, c: nat, x: Note,
                      p': nat, n': nat, c': nat)
    requires WellFormedBacking(backing)
    requires p < |backing.phrases| && n < |backing.phrases[p]|
    requires c < ChunkCount(backing.phrases[p][n].length)
    requires SungMirrors(backing, sung, p, n, c) && SungWindows(backing, sung, p, n, c)
    requires x.length == if sung == [] then INITIAL_WINDOW_MS else Chunks(backing.phrases[p][n].length)[c]
    requires NextCursor(backing, p, n, c, p', n', c')
    ensures SungMirrors(backing, AppendSung(sung, p, x), p', n', c')
    ensures SungWindows(backing, AppendSung(sung, p, x), p', n', c')
  {
    MirrorsAfterStep(backing, sung, p, n, c, x, p', n', c');
    WindowsAfterStep(backing, sung, p, n, c, x, p', n', c');
  }

  /** The notes of a track in order, with the phrase boundaries forgotten. */
  function Flatten(phrases: seq<Phrase>): (notes: seq<Note>) {
    if phrases == [] then [] else Flatten(phrases[..|phrases| - 1]) + phrases[|phrases| - 1]
  }

  lemma FlattenAppend(phrases: seq<Phrase>, last: Phrase)
    ensures Flatten(phrases + [last]) == Flatten(phrases) + last
  {
    assert (phrases + [last])[..|phrases|] == phrases;
  }

  /** Appending to the last phrase appends the note to the flattened track. */
  lemma FlattenAppendSung(phrases: seq<Phrase>, p: nat, x: Note)
    requires |phrases| == p + 1 || |phrases| == p
    ensures Flatten(AppendSung(phrases, p, x)) == Flatten(phrases) + [x]
  {
    var last := if |phrases| == p then [] else phrases[p];
    AppendSungAtEnd(phrases, p, x);
    FlattenAppend(phrases[..p], last + [x]);
    if |phrases| == p + 1 {
      FlattenAppend(phrases[..p], last);
    } else {
      assert phrases[..p] == phrases;
    }
  }

  /**
   * `notes` are what the microphone yields from `samples`, one window after
   * the other from the front: each note is voiced, has no lyric, and carries
   * the pitch detected in the next `8 * length` samples (its window at 8000
   * samples per second).
   */
  ghost predicate SungFrom(pitchOf: seq<real> -> Int8, samples: seq<real>, notes: seq<Note>)
    decreases |notes|
  {
    notes == [] ||
    var w := 8 * notes[0].length;
    && w <= |samples|
    && notes[0].voiced && notes[0].lyric == ""
    && notes[0].pitch == pitchOf(samples[..w])
    && SungFrom(pitchOf, samples[w..], notes[1..])
  }

  /** Lengths add up over concatenation. */
  lemma {:induction false} NotesLengthConcat(a: seq<Note>, b: seq<Note>)
    ensures NotesLength(a + b) == NotesLength(a) + NotesLength(b)
    decreases |b|
  {
    if b != [] {
      var init := b[..|b| - 1];
      var y := b[|b| - 1];
      assert b == init + [y];
      assert a + b == (a + init) + [y];
      NotesLengthConcat(a, init);
      NotesLengthAppend(a + init, y);
      NotesLengthAppend(init, y);
    } else {
      assert a + b == a;
    }
  }

  /** The length of notes, counted from the front. */
  lemma NotesLengthFront(notes: seq<Note>)
    requires notes != []
    ensures NotesLength(notes) == notes[0].length + NotesLength(notes[1..])
  {
    assert notes == [notes[0]] + notes[1..];
    NotesLengthConcat([notes[0]], notes[1..]);
    NotesLengthAppend([], notes[0]);
    assert [] + [notes[0]] == [notes[0]];
  }

  /** The head and tail of a concatenation whose left part is non-empty. */
  lemma ConcatFront(a: seq<Note>, b: seq<Note>)
    requires a != []
    ensures (a + b)[0] == a[0] && (a + b)[1..] == a[1..] + b
  {
  }

  /** Dropping `i` samples and then `j` drops `i + j`. */
  lemma DropDrop(samples: seq<real>, i: nat, j: nat)
    requires i <= |samples| && j <= |samples| - i
    ensures samples[i..][j..] == samples[i + j..]
  {
  }

  /**
   * What is sung from the samples left after the windows of `a` continues
   * what `a` sang: the two together are sung from the whole.
   */
  lemma {:induction false} SungFromConcat(pitchOf: seq<real> -> Int8, samples: seq<real>, a: seq<Note>, b: seq<Note>)
    requires SungFrom(pitchOf, samples, a) && 8 * NotesLength(a) <= |samples|
    requires SungFrom(pitchOf, samples[8 * NotesLength(a)..], b)
    ensures SungFrom(pitchOf, samples, a + b)
    decreases |a|
  {
    if a == [] {
      assert a + b == b;
      assert samples[0..] == samples;
    } else {
      var w := 8 * a[0].length;
      NotesLengthFront(a);
      DropDrop(samples, w, 8 * NotesLength(a[1..]));
      SungFromConcat(pitchOf, samples[w..], a[1..], b);
      ConcatFront(a, b);
    }
  }

  /**
   * Going from the sung phrases `before` with the microphone buffer `samples`
   * to the phrases `after` with the buffer `buffer`: every phrase only grew,
   * the notes added are, in order, sung window by window from the front of
   * `samples`, and what is left of `samples` after those windows is `buffer`.
   */
  ghost predicate Sang(pitchOf: seq<real> -> Int8, before: seq<Phrase>, samples: seq<real>,
                       after: seq<Phrase>, buffer: seq<real>)
  {
    && |before| <= |after|
    && (forall q :: 0 <= q < |before| ==> before[q] <= after[q])
    && Flatten(before) <= Flatten(after)
    && var added := Flatten(after)[|Flatten(before)|..];
       && SungFrom(pitchOf, samples, added)
       && 8 * NotesLength(added) <= |samples|
       && buffer == samples[8 * NotesLength(added)..]
  }

  /**
   * The sung notes added from `before` to `after` each passed the readiness
   * gate's budget: every one but the track's first is at most `budget` (its
   * window was the current chunk), and when the track's first note was among
   * them, the chunk the cursor was on then, `firstChunk`, was at most `budget`.
   */
  ghost predicate WithinBudget(before: seq<Phrase>, after: seq<Phrase>, firstChunk: nat, budget: nat) {
    && (forall i :: |Flatten(before)| <= i < |Flatten(after)| && i > 0 ==> Flatten(after)[i].length <= budget)
    && (before == [] && after != [] ==> firstChunk <= budget)
  }

  /** A note appended past the track's first that fits the budget keeps the added notes within it. */
  lemma BudgetAppend(before: seq<Phrase>, mid: seq<Phrase>, p: nat, x: Note, firstChunk: nat, budget: nat)
    requires WithinBudget(before, mid, firstChunk, budget)
    requires |Flatten(before)| <= |Flatten(mid)|
    requires |mid| == p || |mid| == p + 1
    requires mid != [] ==> x.length <= budget
    requires before == [] && mid == [] ==> firstChunk <= budget
    ensures WithinBudget(before, AppendSung(mid, p, x), firstChunk, budget)
  {
    FlattenAppendSung(mid, p, x);
    var after := AppendSung(mid, p, x);
    forall i | |Flatten(before)| <= i < |Flatten(after)| && i > 0
      ensures Flatten(after)[i].length <= budget
    {
      if i < |Flatten(mid)| {
        assert Flatten(after)[i] == Flatten(mid)[i];
      } else {
        assert Flatten(after)[i] == x;
        assert Flatten(mid) != [];
      }
    }
  }

  /** Nothing sung, nothing consumed. */
  lemma SangNothing(pitchOf: seq<real> -> Int8, phrases: seq<Phrase>, samples: seq<real>)
    ensures Sang(pitchOf, phrases, samples, phrases, samples)
  {
    assert Flatten(phrases)[|Flatten(phrases)|..] == [];
    assert samples[0..] == samples;
  }

  /**
   * Appending to the last sung phrase the note sung from the first window of
   * `samples` sings that note and leaves the rest of `samples`.
   */
  lemma SangAppend(pitchOf: seq<real> -> Int8, before: seq<Phrase>, p: nat, samples: seq<real>, x: Note)
    requires |before| == p + 1 || |before| == p
    requires 8 * x.length <= |samples|
    requires x.voiced && x.lyric == "" && x.pitch == pitchOf(samples[..8 * x.length])
    ensures Sang(pitchOf, before, samples, AppendSung(before, p, x), samples[8 * x.length..])
  {
    FlattenAppendSung(before, p, x);
    AddedOne(Flatten(before), x);
    SungOne(pitchOf, samples, x);
    NotesLengthOne(x);
  }

  /** Appending one note to a sequence adds exactly that note. */
  lemma AddedOne(notes: seq<Note>, x: Note)
    ensures notes <= notes + [x] && (notes + [x])[|notes|..] == [x]
  {
  }

  /** A single note sung from the first window of `samples`. */
  lemma SungOne(pitchOf: seq<real> -> Int8, samples: seq<real>, x: Note)
    requires 8 * x.length <= |samples|
    requires x.voiced && x.lyric == "" && x.pitch == pitchOf(samples[..8 * x.length])
    ensures SungFrom(pitchOf, samples, [x])
  {
    assert [x][1..] == [];
  }

  /** One note is as long as that note. */
  lemma NotesLengthOne(x: Note)
    ensures NotesLength([x]) == x.length
  {
    assert [x][..0] == [];
  }

  /** What a longer sequence adds to a shorter prefix is what the middle one adds, then the rest. */
  lemma PrefixSplit(f0: seq<Note>, f1: seq<Note>, f2: seq<Note>)
    requires f0 <= f1 && f1 <= f2
    ensures f0 <= f2 && f2[|f0|..] == f1[|f0|..] + f2[|f1|..]
  {
  }

  /** Singing from `samples` to `middle` and then from `middle` to `buffer` sings from `samples` to `buffer`. */
  lemma SangTrans(pitchOf: seq<real> -> Int8, p0: seq<Phrase>, samples: seq<real>,
                  p1: seq<Phrase>, middle: seq<real>, p2: seq<Phrase>, buffer: seq<real>)
    requires Sang(pitchOf, p0, samples, p1, middle)
    requires Sang(pitchOf, p1, middle, p2, buffer)
    ensures Sang(pitchOf, p0, samples, p2, buffer)
  {
    var f0, f1, f2 := Flatten(p0), Flatten(p1), Flatten(p2);
    var a, b := f1[|f0|..], f2[|f1|..];
    PrefixSplit(f0, f1, f2);
    SungFromConcat(pitchOf, samples, a, b);
    NotesLengthConcat(a, b);
    DropDrop(samples, 8 * NotesLength(a), 8 * NotesLength(b));
  }

  // ------------------------------------------------------------ the session

  /** The last note of a well-formed backing track. */
  ghost function LastNote(backing: Track): (last: Note)
    requires WellFormedBacking(backing)
  {
    var ps := backing.phrases;
    ps[|ps| - 1][|ps[|ps| - 1]| - 1]
  }

  class TrackSession {
    /** The backing track: the song's first track in its map's iteration order. */
    const backing: Track
    const mic: Microphone
    /** The frame source; `new` always fills the optional field. */
    const frames: FrameSplitting.FrameSplitter
    /** The sung track. */
    var track: Track
    var state: State
    var elapsedTime: nat
    var elapsedTimeGoal: nat
    var lastUpdateTime: nat
    var phraseIndex: nat
    var noteIndex: nat
    var chunkLengths: seq<nat>
    var chunkIndex: nat

    /**
     * The cursor invariant: before the end, the cursor is on a note of the
     * backing track and `chunk_lengths` are that note's chunks; at the end,
     * the phrase index is one past the last phrase and `chunk_lengths` are
     * still the last note's. `elapsed_time` stays zero, as nothing assigns it.
     */
    ghost predicate Valid()
      reads this, mic
    {
      && WellFormedBacking(backing)
      && mic.Valid()
      && elapsedTime == 0
      && 1 <= mic.windowLength < U32_LIMIT
      && (state != Finished ==>
            && phraseIndex < |backing.phrases|
            && noteIndex < |backing.phrases[phraseIndex]|
            && chunkLengths == Chunks(backing.phrases[phraseIndex][noteIndex].length))
      && (state == Finished ==>
            && phraseIndex == |backing.phrases| && noteIndex == 0 && chunkIndex == 0
            && chunkLengths == Chunks(LastNote(backing).length))
      && chunkIndex < |chunkLengths|
      && AllVoiced(track.phrases)
    }

    /**
     * What the sung track says about progress: it mirrors the cursor, each
     * sung note is as long as the window it was sung with (the initial 100 ms
     * for the track's first note, its chunk for every other), its total
     * length is the time the microphone has consumed, and once a note was
     * sung the microphone window is the current chunk (before that it is the
     * initial 100 ms).
     */
    ghost predicate Synced()
      reads this, mic
    {
      && SungMirrors(backing, track.phrases, phraseIndex, noteIndex, chunkIndex)
      && SungWindows(backing, track.phrases, phraseIndex, noteIndex, chunkIndex)
      && mic.elapsedTime == PhrasesLength(track.phrases)
      && (track.phrases == [] ==> mic.windowLength == INITIAL_WINDOW_MS)
      && (track.phrases != [] && state != Finished && chunkIndex < |chunkLengths| ==>
            mic.windowLength == chunkLengths[chunkIndex])
    }

    /**
     * The session `TrackSession::new` builds once its frame splitter is open,
     * for a backing track that has a first note: playing, cursor on the first
     * chunk of the first note, an empty sung track, both time counters at
     * zero, and a new microphone.
     */
    constructor (backing: Track, now: nat, frames: FrameSplitting.FrameSplitter)
      requires WellFormedBacking(backing)
      ensures Valid() && Synced()
      ensures this.backing == backing && this.frames == frames && fresh(mic)
      ensures state == Playing && track == Track([])
      ensures phraseIndex == 0 && noteIndex == 0 && chunkIndex == 0
      ensures chunkLengths == Chunks(backing.phrases[0][0].length)
      ensures elapsedTime == 0 && elapsedTimeGoal == 0 && lastUpdateTime == now
      ensures mic.buffer == [] && mic.windowLength == INITIAL_WINDOW_MS
    {
      var initialNote := backing.phrases[0][0];
      var chunks := SplitIntoChunks(initialNote.length);
      this.backing := backing;
      this.frames := frames;
      mic := new Microphone();
      track := Track([]);
      state := Playing;
      elapsedTime, elapsedTimeGoal, lastUpdateTime := 0, 0, now;
      phraseIndex, noteIndex, chunkIndex := 0, 0, 0;
      chunkLengths := chunks;
      ChunksShape(initialNote.length);
    }

    /** `finish`: the session is over (stopping the input stream is not modelled). */
    method Finish()
      modifies this`state
      ensures state == Finished
    {
      state := Finished;
    }

    /**
     * `next_chunk`: the next chunk of the note; past the note's last chunk,
     * the first chunk of the next note; past the phrase's last note, the first
     * chunk of the next phrase; past the last phrase, `finish`, leaving
     * `chunk_lengths` as they are.
     */
    method NextChunk()
      requires Valid() && state != Finished
      modifies this`chunkIndex, this`noteIndex, this`phraseIndex, this`chunkLengths, this`state
      ensures Valid()
      ensures old(chunkIndex) + 1 < |old(chunkLengths)| ==>
                && chunkIndex == old(chunkIndex) + 1
                && noteIndex == old(noteIndex) && phraseIndex == old(phraseIndex)
                && chunkLengths == old(chunkLengths) && state == old(state)
      ensures old(chunkIndex) + 1 >= |old(chunkLengths)|
              && old(noteIndex) + 1 < |backing.phrases[old(phraseIndex)]| ==>
                && chunkIndex == 0 && noteIndex == old(noteIndex) + 1 && phraseIndex == old(phraseIndex)
                && chunkLengths == Chunks(backing.phrases[phraseIndex][noteIndex].length)
                && state == old(state)
      ensures old(chunkIndex) + 1 >= |old(chunkLengths)|
              && old(noteIndex) + 1 >= |backing.phrases[old(phraseIndex)]|
              && old(phraseIndex) + 1 < |backing.phrases| ==>
                && chunkIndex == 0 && noteIndex == 0 && phraseIndex == old(phraseIndex) + 1
                && chunkLengths == Chunks(backing.phrases[phraseIndex][0].length)
                && state == old(state)
      ensures old(chunkIndex) + 1 >= |old(chunkLengths)|
              && old(noteIndex) + 1 >= |backing.phrases[old(phraseIndex)]|
              && old(phraseIndex) + 1 >= |backing.phrases| ==>
                && chunkIndex == 0 && noteIndex == 0 && phraseIndex == |backing.phrases|
                && chunkLengths == old(chunkLengths) && state == Finished
      ensures NextCursor(backing, old(phraseIndex), old(noteIndex), old(chunkIndex), phraseIndex, noteIndex, chunkIndex)
    {
      chunkIndex := chunkIndex + 1;
      if chunkIndex >= |chunkLengths| {
        chunkIndex := 0;
        noteIndex := noteIndex + 1;
        if noteIndex >= |backing.phrases[phraseIndex]| {
          noteIndex := 0;
          phraseIndex := phraseIndex + 1;
          if phraseIndex >= |backing.phrases| {
            Finish();
            return;
          }
        }
        var noteLength := backing.phrases[phraseIndex][noteIndex].length;
        chunkLengths := SplitIntoChunks(noteLength);
        ChunksShape(noteLength);
      }
    }

    /**
     * `ready`: the microphone is ready and the current chunk fits in the time
     * budget `elapsed_time_goal - elapsed_time` (saturating, in ms, cast to
     * `u32`). Since `elapsed_time` stays zero, the budget is the goal itself.
     */
    function Ready(): (r: bool)
      reads this, mic
      requires Valid()
      ensures r <==> mic.Ready() && chunkLengths[chunkIndex] <= elapsedTimeGoal % U32_LIMIT
    {
      var micReady := mic.Ready();
      var remaining := SaturatingSub(elapsedTimeGoal, elapsedTime);
      var chunkLength := chunkLengths[chunkIndex];
      micReady && chunkLength <= remaining % U32_LIMIT
    }

    /**
     * `tick`. Playing: the time since the last update is added to the goal,
     * then while ready one microphone window is consumed per pass, its note
     * appended to the sung phrase at the cursor (a new phrase is started if
     * needed), the cursor advanced by one chunk and the microphone window set
     * to the new current chunk; the loop ends when not ready or past the last
     * phrase. Paused: only the update instant moves. Finished: nothing changes.
     * In every state, the notes added to the sung track are, in order, the
     * windows taken from the front of the buffer, and no other sample leaves
     * it (`Sang`). (The pitch difference to the backing note is computed and discarded.)
     */
    method Tick(now: nat, pitchOf: seq<real> -> Int8)
      requires Valid() && Synced()
      modifies this, mic
      ensures Valid() && Synced()
      ensures old(state) == Finished ==> unchanged(this) && unchanged(mic)
      ensures old(state) == Paused ==>
                && unchanged(mic)
                && lastUpdateTime == now
                && state == Paused && track == old(track) && elapsedTimeGoal == old(elapsedTimeGoal)
                && phraseIndex == old(phraseIndex) && noteIndex == old(noteIndex)
                && chunkIndex == old(chunkIndex) && chunkLengths == old(chunkLengths)
      ensures old(state) == Playing ==>
                && elapsedTimeGoal == old(elapsedTimeGoal) + Since(now, old(lastUpdateTime))
                && lastUpdateTime == now
                && (state == Playing || state == Finished)
                && (state == Playing ==> !Ready())
      ensures elapsedTime == old(elapsedTime)
      ensures Sang(pitchOf, old(track.phrases), old(mic.buffer), track.phrases, mic.buffer)
      ensures WithinBudget(old(track.phrases), track.phrases, old(chunkLengths[chunkIndex]), elapsedTimeGoal % U32_LIMIT)
    {
      match state {
        case Playing =>
          TickPlaying(now, pitchOf);
        case Paused =>
          TickPaused(now);
          SangNothing(pitchOf, track.phrases, mic.buffer);
        case Finished =>
          SangNothing(pitchOf, track.phrases, mic.buffer);
      }
    }

    /** The `Paused` arm of `tick`: only the update instant moves. */
    method TickPaused(now: nat)
      requires Valid() && Synced()
      modifies this`lastUpdateTime
      ensures Valid() && Synced()
      ensures lastUpdateTime == now
    {
      lastUpdateTime := now;
    }

    /** The `Playing` arm of `tick`: move the goal and the update instant, then sing while ready. */
    method TickPlaying(now: nat, pitchOf: seq<real> -> Int8)
      requires Valid() && Synced() && state == Playing
      modifies this`elapsedTimeGoal, this`lastUpdateTime
      modifies this`track, this`chunkIndex, this`noteIndex, this`phraseIndex, this`chunkLengths, this`state
      modifies mic`buffer, mic`numSamplesProcessed, mic`elapsedTime, mic`windowLength
      ensures Valid() && Synced()
      ensures elapsedTimeGoal == old(elapsedTimeGoal) + Since(now, old(lastUpdateTime))
      ensures lastUpdateTime == now
      ensures state == Playing || state == Finished
      ensures state == Playing ==> !Ready()
      ensures Sang(pitchOf, old(track.phrases), old(mic.buffer), track.phrases, mic.buffer)
      ensures WithinBudget(old(track.phrases), track.phrases, old(chunkLengths[chunkIndex]), elapsedTimeGoal % U32_LIMIT)
    {
      elapsedTimeGoal := elapsedTimeGoal + Since(now, lastUpdateTime);
      lastUpdateTime := now;
      SingWhileReady(pitchOf);
    }

    /**
     * The `while self.ready()` loop of `tick`: one microphone window sung per
     * pass, until not ready or past the last phrase.
     */
    method SingWhileReady(pitchOf: seq<real> -> Int8)
      requires Valid() && Synced() && state == Playing
      modifies this`track, this`chunkIndex, this`noteIndex, this`phraseIndex, this`chunkLengths, this`state
      modifies mic`buffer, mic`numSamplesProcessed, mic`elapsedTime, mic`windowLength
      ensures Valid() && Synced()
      ensures state == Playing || state == Finished
      ensures state == Playing ==> !Ready()
      ensures Sang(pitchOf, old(track.phrases), old(mic.buffer), track.phrases, mic.buffer)
      ensures WithinBudget(old(track.phrases), track.phrases, old(chunkLengths[chunkIndex]), elapsedTimeGoal % U32_LIMIT)
    {
      ghost var before := track.phrases;
      ghost var samples := mic.buffer;
      ghost var firstChunk := chunkLengths[chunkIndex];
      ghost var budget := elapsedTimeGoal % U32_LIMIT;
      SangNothing(pitchOf, before, samples);
      while Ready()
        invariant Valid() && Synced()
        invariant state == Playing || state == Finished
        invariant Sang(pitchOf, before, samples, track.phrases, mic.buffer)
        invariant WithinBudget(before, track.phrases, firstChunk, budget)
        invariant track.phrases == [] ==> chunkLengths[chunkIndex] == firstChunk
        decreases |mic.buffer|
      {
        var currentPhrase := backing.GetPhrase(phraseIndex);
        match currentPhrase {
          case None =>
            assert state == Finished;
            break;
          case Some(phrase) =>
            assert state == Playing;
            SingPass(pitchOf, before, samples, firstChunk, budget);
        }
      }
    }

    /**
     * One pass of the `while self.ready()` loop with the cursor on a note: its
     * note is sung within the budget, and the loop's invariants are kept.
     */
    method SingPass(pitchOf: seq<real> -> Int8, ghost before: seq<Phrase>, ghost samples: seq<real>,
                    ghost firstChunk: nat, ghost budget: nat)
      requires Valid() && Synced() && Ready() && state == Playing
      requires budget == elapsedTimeGoal % U32_LIMIT
      requires Sang(pitchOf, before, samples, track.phrases, mic.buffer)
      requires WithinBudget(before, track.phrases, firstChunk, budget)
      requires track.phrases == [] ==> chunkLengths[chunkIndex] == firstChunk
      modifies this`track, this`chunkIndex, this`noteIndex, this`phraseIndex, this`chunkLengths, this`state
      modifies mic`buffer, mic`numSamplesProcessed, mic`elapsedTime, mic`windowLength
      ensures Valid() && Synced()
      ensures state == Playing || state == Finished
      ensures Sang(pitchOf, before, samples, track.phrases, mic.buffer)
      ensures WithinBudget(before, track.phrases, firstChunk, budget)
      ensures track.phrases != []
      ensures |mic.buffer| < old(|mic.buffer|)
    {
      ghost var sungBefore, window, p := track.phrases, mic.buffer, phraseIndex;
      assert chunkLengths[chunkIndex] <= budget;
      assert sungBefore != [] ==> mic.windowLength <= budget;
      var sungNote := SungStep(pitchOf);
      SangTrans(pitchOf, before, samples, sungBefore, window, track.phrases, mic.buffer);
      BudgetAppend(before, sungBefore, p, sungNote, firstChunk, budget);
    }

    /**
     * The body of one pass of the tick loop, while the cursor is on a note:
     * append the note of one microphone window, advance the cursor, re-arm
     * the window to the new current chunk.
     */
    method SungStep(pitchOf: seq<real> -> Int8) returns (sungNote: Note)
      requires Valid() && Synced() && Ready() && state == Playing
      modifies this`track, this`chunkIndex, this`noteIndex, this`phraseIndex, this`chunkLengths, this`state
      modifies mic`buffer, mic`numSamplesProcessed, mic`elapsedTime, mic`windowLength
      ensures Valid() && Synced()
      ensures state == Playing || state == Finished
      ensures 8 * old(mic.windowLength) <= |old(mic.buffer)|
      ensures mic.buffer == old(mic.buffer)[8 * old(mic.windowLength)..]
      ensures mic.numSamplesProcessed == old(mic.numSamplesProcessed) + 8 * old(mic.windowLength)
      ensures sungNote.length == old(mic.windowLength) && sungNote.voiced && sungNote.lyric == ""
      ensures sungNote.pitch == pitchOf(old(mic.buffer)[..8 * old(mic.windowLength)])
      ensures track.phrases == AppendSung(old(track.phrases), old(phraseIndex), sungNote)
      ensures Sang(pitchOf, old(track.phrases), old(mic.buffer), track.phrases, mic.buffer)
    {
      ghost var oldSung := track.phrases;
      assert mic.windowLength == if oldSung == [] then INITIAL_WINDOW_MS else chunkLengths[chunkIndex];
      sungNote := AppendMicNote(pitchOf);
      Advance(oldSung, sungNote);
    }

    /**
     * The second half of a loop pass, once the note `x` has been appended to
     * the sung track `oldSung`: advance the cursor by one chunk and set the
     * microphone window to the new current chunk.
     */
    method Advance(ghost oldSung: seq<Phrase>, ghost x: Note)
      requires Valid() && state == Playing
      requires SungMirrors(backing, oldSung, phraseIndex, noteIndex, chunkIndex)
      requires SungWindows(backing, oldSung, phraseIndex, noteIndex, chunkIndex)
      requires x.length == if oldSung == [] then INITIAL_WINDOW_MS else chunkLengths[chunkIndex]
      requires track.phrases == AppendSung(oldSung, phraseIndex, x)
      requires mic.elapsedTime == PhrasesLength(track.phrases)
      modifies this`chunkIndex, this`noteIndex, this`phraseIndex, this`chunkLengths, this`state, mic`windowLength
      ensures Valid() && Synced()
      ensures state == Playing || state == Finished
      ensures track == old(track) && mic.buffer == old(mic.buffer)
      ensures mic.numSamplesProcessed == old(mic.numSamplesProcessed)
    {
      ghost var p, n, c := phraseIndex, noteIndex, chunkIndex;
      ChunksShape(backing.phrases[p][n].length);
      NextChunk();
      CurrentChunkBounds(this);
      mic.SetWindowLength(chunkLengths[chunkIndex]);
      SungAfterStep(backing, oldSung, p, n, c, x, phraseIndex, noteIndex, chunkIndex);
    }

    /**
     * Consume one microphone window (ready implies the microphone is ready,
     * so the `unwrap` succeeds) and append its note to the sung phrase at the
     * cursor, starting that phrase if it does not exist yet.
     */
    method AppendMicNote(pitchOf: seq<real> -> Int8) returns (sungNote: Note)
      requires Valid() && Synced() && Ready() && state == Playing
      modifies this`track, mic`buffer, mic`numSamplesProcessed, mic`elapsedTime
      ensures Valid()
      ensures 8 * mic.windowLength <= |old(mic.buffer)|
      ensures mic.buffer == old(mic.buffer)[8 * mic.windowLength..]
      ensures mic.numSamplesProcessed == old(mic.numSamplesProcessed) + 8 * mic.windowLength
      ensures sungNote.length == mic.windowLength && sungNote.voiced && sungNote.lyric == ""
      ensures sungNote.pitch == pitchOf(old(mic.buffer)[..8 * mic.windowLength])
      ensures track.phrases == AppendSung(old(track.phrases), phraseIndex, sungNote)
      ensures Sang(pitchOf, old(track.phrases), old(mic.buffer), track.phrases, mic.buffer)
      ensures mic.elapsedTime == PhrasesLength(track.phrases)
      ensures SungMirrors(backing, old(track.phrases), phraseIndex, noteIndex, chunkIndex)
      ensures state == Playing
    {
      var sung := mic.Consume(pitchOf);
      sungNote := sung.value;
      U32Unchanged(mic.windowLength);
      assert sungNote.length == mic.windowLength;
      AppendSungLength(track.phrases, phraseIndex, sungNote);
      AppendSungVoiced(track.phrases, phraseIndex, sungNote);
      SangAppend(pitchOf, track.phrases, phraseIndex, old(mic.buffer), sungNote);
      assert mic.buffer == old(mic.buffer)[8 * sungNote.length..];
      track := Track(AppendSung(track.phrases, phraseIndex, sungNote));
    }
  }

  /**
   * The frame-splitter field of `TrackSession::new`: the song must have a
   * video path (`expect` panics otherwise), and `FrameSplitter::new` on it
   * either opens the video or fails; its I/O error is returned through `?`,
   * and its panic ends the program.
   */
  function OpenVideo(videoPath: Option<string>, probeOutput: Option<string>, decoderStarts: bool)
    : (r: Result<FrameSplitting.FrameSplitter, FrameSplitting.Failure>)
    ensures videoPath.None? ==> r == Err(FrameSplitting.Panic)
    ensures r.Ok? <==> videoPath.Some? && probeOutput.Some?
                       && FrameSplitting.ReadDimensions(probeOutput.value).Ok? && decoderStarts
    ensures r == Err(FrameSplitting.IoError) <==>
              videoPath.Some? && (probeOutput.None?
                || (FrameSplitting.ReadDimensions(probeOutput.value).Ok? && !decoderStarts))
    ensures r.Ok? ==> r.value.path == videoPath.value && r.value.frameIndex == 0
                      && FrameSplitting.ReadDimensions(probeOutput.value) == Ok((r.value.width, r.value.height))
  {
    match videoPath
    case None => Err(FrameSplitting.Panic)
    case Some(path) => FrameSplitting.NewFrameSplitter(path, probeOutput, decoderStarts)
  }

  /**
   * `TrackSession::new`: opening the video comes first, and its failure is
   * the session's; otherwise the session of the constructor, holding the
   * opened frame splitter. (`Err(Panic)` stands for the program ending.)
   */
  method NewTrackSession(backing: Track, now: nat, videoPath: Option<string>,
                         probeOutput: Option<string>, decoderStarts: bool)
    returns (r: Result<TrackSession, FrameSplitting.Failure>)
    requires WellFormedBacking(backing)
    ensures var video := OpenVideo(videoPath, probeOutput, decoderStarts);
            && (video.Err? ==> r == Err(video.error))
            && (video.Ok? ==>
                  && r.Ok? && fresh(r.value) && fresh(r.value.mic)
                  && r.value.Valid() && r.value.Synced()
                  && r.value.backing == backing && r.value.frames == video.value
                  && r.value.state == Playing && r.value.track == Track([])
                  && r.value.phraseIndex == 0 && r.value.noteIndex == 0 && r.value.chunkIndex == 0
                  && r.value.lastUpdateTime == now
                  && r.value.elapsedTime == 0 && r.value.elapsedTimeGoal == 0
                  && r.value.mic.buffer == [] && r.value.mic.windowLength == INITIAL_WINDOW_MS)
  {
    var video := OpenVideo(videoPath, probeOutput, decoderStarts);
    match video
    case Err(e) =>
      r := Err(e);
    case Ok(frames) =>
      var session := new TrackSession(backing, now, frames);
      r := Ok(session);
  }

  /** The current chunk is at least 1 ms and fits in a `u32`. */
  lemma CurrentChunkBounds(s: TrackSession)
    requires s.Valid()
    ensures 1 <= s.chunkLengths[s.chunkIndex] < U32_LIMIT
  {
    var len := if s.state == Finished then LastNote(s.backing).length
               else s.backing.phrases[s.phraseIndex][s.noteIndex].length;
    ChunkBounds(len);
  }
}
