# Karaoke core in Dafny

A model of the core of a karaoke program. The program listens to a singer
through the microphone, cuts every note of a backing track into short analysis
chunks, and builds a "sung" track with one detected note per chunk. It paces
all of this against a time budget that grows with wall-clock time.

The modules follow the source files:

| module | source | what it holds |
|---|---|---|
| `Notes` (note.dfy) | src/note.rs | the `Note` record and `Track` as a sequence of phrases with `get_phrase` |
| `Songs` (song.dfy) | src/song.rs | `Song`, a class whose track dictionary is a `map` field that `AddTrack` reassigns |
| `SongLibrary` (song_library.dfy) | src/song_library.rs | the selection cursor as a class with a `selectionIndex` field, plus index functions and lemmas about them |
| `SongView` (song_view.dfy) | src/song_view.rs | `pad_to_width` |
| `FrameSplitting` (frame_splitter.dfy) | src/frame_splitter.rs | the `WxH` probe-output parse, the splitter's construction, and the frame size |
| `Time` (time.dfy) | `Instant`/`Duration` | saturating millisecond arithmetic |
| `Timers` (timer.dfy) | src/timer.rs | the pausable stopwatch as a class |
| `Mic` (mic.dfy) | src/mic.rs | the microphone's sample FIFO and counters, the zero-cross and peak-lag search, and the zero-crossing count |
| `SongPanel` (song_panel.dfy) | src/song_panel.rs | chunk splitting, opening the session, the chunk → note → phrase cursor, the readiness gate and the tick loop |
| `Wrappers` (wrappers.dfy) | — | `Option` and `Result` |
| `Numeric` (numeric.dfy) | — | the `u8`, `u32`, `i8` and `usize` ranges |

Conventions:
- Every instant and duration is a whole number of milliseconds.
- Each operation that reads the clock takes `now` as a parameter.
- The pitch the detector derives from a window of samples is an
  uninterpreted function `pitchOf`, passed to the operations that consume
  samples. The autocorrelation sequence fed to the peak search is an input
  of `Mic.PeakLag`.

The session's main invariants:
- `SongPanel.TrackSession.Valid` keeps the cursor facts. Before the end,
  the cursor is on a note of the backing track, `chunkLengths` are that
  note's chunks, and `chunkIndex` is in range. `elapsed_time` stays 0.
- `SongPanel.TrackSession.Synced` ties the sung track to the cursor. Every
  finished phrase holds one sung note per chunk of its backing notes. The
  current phrase holds one sung note per chunk passed so far. Every sung
  note is as long as the window it was sung with: the first is the
  microphone's initial 100 ms, and every other one is its chunk
  (`SongPanel.SungWindows`). The sung track's total length equals the
  microphone's elapsed time. After the first note, the microphone's window
  is the current chunk; before it, the window is the initial 100 ms.
- `Mic.Microphone.Valid` keeps `numSamplesProcessed == elapsedTime * 8000 / 1000`.
  This is what keeps the subtraction in `needed_samples` from going below zero.

Behaviour of the code worth noting:
- `Timer::elapsed_time` while running overwrites the stored elapsed time
  with the current interval only. It is not the total running time, and a
  later `pause` adds to that overwritten value.
  `Timers.ElapsedReportsCurrentIntervalOnly` pins this down: it runs 0–10 ms
  and 20–25 ms, reads 5, and a pause then stores 10.
- The sung track gets one note per chunk, not one per backing note. Its
  shape equals the backing track's only when every backing note is at most
  20 ms long: such notes give one chunk each (`SongPanel.ShortNotesOneChunk`,
  `SongPanel.FinishedSungShape`), and a phrase with a longer note gets more
  sung notes than it has backing notes (`SongPanel.LongNoteMoreChunks`).
- The first sung note is as long as the microphone's initial 100 ms window,
  not the first chunk. The window is set to the chunk only after the first
  consumption.
- `TrackSession`'s `elapsed_time` is never advanced. The time budget
  `elapsed_time_goal − elapsed_time` is therefore the goal itself.
- An empty backing track is not refused with an error value: the source
  panics at an `unwrap`.
- The core's integer overflows behave differently in the two Rust build
  profiles: a release build wraps and a debug build panics.
  - `split_into_chunks` computes `num + 20 - 1` in `u32`: first `num + 20`,
    then `- 1`. `SongPanel.ChunkCountAsWritten` models the release build,
    with both steps wrapping. For the 19 largest lengths the count is 0, and
    `num % k` then panics. For `2^32 − 20` the sum wraps to 0 and the
    subtraction back to `2^32 − 1`, so the count comes out right. A debug
    build panics at `num + 20` for each of the 20 largest lengths, that one
    included.
  - `select_previous` and `select` compute `songs.len() - 1`
    (src/song_library.rs:95, 101). On an empty library this wraps to
    `usize::MAX` in a release build and panics in a debug build. The model
    makes that case a precondition: `SelectPrevious` needs a selection above
    0 or a song, and `Select` needs a song.
  - `FrameSplitting.NextFrame` models the debug build: an overflowing frame
    size is a panic.
- The video frame index is not derived from elapsed time and frame rate.
  `next_frame` reads the next frame unconditionally.

## Model

| member | source | states |
|---|---|---|
| Notes.NewNote | src/note.rs:10-17 | each argument is stored in the field of the same name; the pitch lies in the `i8` range |
| Notes.Track.GetPhrase | src/song_panel.rs:119-121 | a phrase is returned exactly when the index is below the phrase count, and it is the phrase at that index |
| Songs.Song.constructor | src/song.rs:24-39 | the metadata is stored unchanged and the song starts with no tracks (`NumTracks() == 0`) |
| Songs.Song.NumTracks | src/song.rs:45-47 | the number of distinct track names; zero exactly for the empty dictionary |
| Songs.Song.AddTrack | src/song.rs:41-43 | afterwards the name maps to the track, every other entry is unchanged, and the key set grows by that name |
| Songs.InsertSize | src/song.rs:41-47 | the track count grows by one for a new name and stays the same when an existing name is overwritten |
| SongLibrary.SongLibrary.constructor | src/song_library.rs:12-18 | the first song is selected |
| SongLibrary.NextIndex | src/song_library.rs:84-89 | moves one forward, wraps to 0 at the end, stays in range on a non-empty library, and gives 0 on an empty one |
| SongLibrary.PreviousIndex | src/song_library.rs:91-97 | moves one back, wraps from 0 to the last index, and stays in range |
| SongLibrary.ClampedIndex | src/song_library.rs:99-105 | keeps an in-range index and clamps any other to the last one |
| SongLibrary.SongLibrary.SelectNext | src/song_library.rs:84-89 | the new selection is `NextIndex` of the old one; the song list is a constant, so it is never changed |
| SongLibrary.SongLibrary.SelectPrevious | src/song_library.rs:91-97 | the new selection is `PreviousIndex` of the old one; it needs a song to wrap to, which is where the source's subtraction would underflow |
| SongLibrary.SongLibrary.Select | src/song_library.rs:99-105 | the new selection is the clamped index, in range; it needs a non-empty library |
| SongLibrary.PreviousUndoesNext | src/song_library.rs:84-97 | from an in-range index, `select_previous` undoes `select_next` |
| SongLibrary.NextUndoesPrevious | src/song_library.rs:84-97 | from an in-range index, `select_next` undoes `select_previous` |
| SongLibrary.StepForwardIsModular | src/song_library.rs:84-89 | `steps` calls of `select_next` from `i` reach `(i + steps) mod n` |
| SongView.Spaces | src/song_view.rs:193 | `width` characters, each a space |
| SongView.PadToWidth | src/song_view.rs:189-196 | the result always has length `width`; a longer string is cut to its first `width` characters; a shorter one is kept as a prefix and followed by spaces |
| SongView.PadExactWidth | src/song_view.rs:189-196 | a string that already has the width comes back unchanged |
| SongView.PadIdempotent | src/song_view.rs:189-196 | padding twice to the same width equals padding once |
| SongView.PadKeepsPrefix | src/song_view.rs:189-196 | each position below both the width and the string's length keeps the string's character |
| FrameSplitting.TrimStart | src/frame_splitter.rs:74 | removes exactly the leading whitespace |
| FrameSplitting.TrimEnd | src/frame_splitter.rs:74 | removes exactly the trailing whitespace |
| FrameSplitting.SplitOn | src/frame_splitter.rs:74 | there is always at least one piece, no piece holds the separator, and a string without the separator is one piece |
| FrameSplitting.SplitAfterPiece | src/frame_splitter.rs:74 | a separator-free prefix followed by the separator becomes the first piece |
| FrameSplitting.Trim | src/frame_splitter.rs:74 | the result neither starts nor ends with whitespace and is never longer; a string that already does not is returned unchanged |
| FrameSplitting.TrimMeaning | src/frame_splitter.rs:74 | the trimmed text is one contiguous part of the input, with only whitespace before it and only whitespace after it |
| FrameSplitting.ParseUsize | src/frame_splitter.rs:75-76 | with one leading `+` dropped, parsing succeeds exactly when what is left is a non-empty run of digits whose value fits in `usize`, and the result is that value; so the empty string and a bare `+` fail |
| FrameSplitting.Decimal | src/frame_splitter.rs:75-76 | a decimal numeral is a non-empty string of digits |
| FrameSplitting.DecimalValue | src/frame_splitter.rs:75-76 | a decimal numeral's digit value is the number it prints |
| FrameSplitting.ParseDecimal | src/frame_splitter.rs:75-76 | parsing the decimal numeral of a `usize` gives that number back |
| FrameSplitting.ParsePieces | src/frame_splitter.rs:74-77 | success exactly when there are two pieces and both parse; then the width is the first piece's value and the height the second's; every failure is a panic |
| FrameSplitting.ParseDimensions | src/frame_splitter.rs:74-76 | every failure is a panic; text without an `x` has no height piece and panics, so success needs an `x` |
| FrameSplitting.ReadDimensions | src/frame_splitter.rs:73-76 | every failure is a panic; output without an `x` after trimming panics |
| FrameSplitting.SplitTwoPieces | src/frame_splitter.rs:74 | `W` and `H` without `x`, joined by one `x`, split into exactly `[W, H]` |
| FrameSplitting.ReadLine | src/frame_splitter.rs:73-74 | a line that starts and ends with a visible character, plus a newline, reads as the line parses |
| FrameSplitting.ExtraPiecesIgnored | src/frame_splitter.rs:74-76 | pieces after the second do not affect the result |
| FrameSplitting.DimensionsOfPieces | src/frame_splitter.rs:74-76 | text `W` + `x` + `H`, followed by nothing or by more `x`-separated pieces, gives `(W, H)` as parsed when both pieces parse, and a panic otherwise |
| FrameSplitting.ReadDimensionsOfPieces | src/frame_splitter.rs:73-76 | probe output whose trimmed text is `W` + `x` + `H` (then nothing or more `x`-separated pieces) reads as `(W, H)` when both parse, and panics otherwise |
| FrameSplitting.TrimLine | src/frame_splitter.rs:73-74 | trimming a printed line loses only its newline |
| FrameSplitting.DigitsHaveNoX | src/frame_splitter.rs:74-76 | a run of digits holds no `x` |
| FrameSplitting.ReadPrintedDimensions | src/frame_splitter.rs:72-77 | the probe's line `WxH` plus a newline parses to `(W, H)` |
| FrameSplitting.NewFrameSplitter | src/frame_splitter.rs:17-29 | an I/O error when the probe cannot run or the decoder does not start; a panic when the output does not parse; otherwise the parsed dimensions, the path and frame index 0 |
| FrameSplitting.NextFrame | src/frame_splitter.rs:31-36 | exactly `4·width·height` bytes: the pipe's first bytes, zero-filled when the pipe ends early; a panic when the size overflows `usize` |
| Time.Since | src/timer.rs:29 | the time from `t` to `now`, zero when `t` is later |
| Time.SaturatingSub | src/timer.rs:54 | the difference when it is non-negative, zero otherwise |
| Time.Max | src/timer.rs:42 | the later of two instants |
| Timers.Timer.constructor | src/timer.rs:15-25 | a new timer is paused, with every counter at zero |
| Timers.Timer.ElapsedTime | src/timer.rs:27-32 | while running, overwrites and returns the time since the last resume; while paused, returns the stored value unchanged |
| Timers.Timer.Touch | src/timer.rs:34-37 | restarts the secondary stopwatch at zero |
| Timers.Timer.DurationSinceTouch | src/timer.rs:39-44 | the stored counter while paused; while running, the counter plus the time since the later of touch and resume; never below the counter |
| Timers.Timer.Process | src/timer.rs:46-48 | the processed time grows by the argument |
| Timers.Timer.TimeLeftToProcess | src/timer.rs:50-55 | refreshes the elapsed time like `elapsed_time`, then returns it less the processed time, saturating at zero and never above the elapsed time |
| Timers.Timer.Pause | src/timer.rs:57-65 | a paused timer is left unchanged; a running one adds the current interval to the elapsed time and to the time since touch, then is paused |
| Timers.Timer.Resume | src/timer.rs:67-70 | running from `now`; the counters are kept |
| Timers.Timer.IsPaused | src/timer.rs:72-74 | reports the paused flag |
| Timers.PauseTwice | src/timer.rs:57-65 | pausing twice gives the same `elapsed_time` reading as pausing once |
| Timers.ElapsedNeverDecreases | src/timer.rs:27-32 | within one running interval, a later reading is never smaller |
| Timers.ProcessedTimeIsSubtracted | src/timer.rs:46-55 | at one instant, running or paused, processing `used` lowers the time left by `used`, saturating at zero |
| Timers.ElapsedReportsCurrentIntervalOnly | src/timer.rs:27-65 | after running 0–10 and 20–25 ms, `elapsed_time` reports 5 and a pause then stores 10 |
| Mic.Microphone.constructor | src/mic.rs:30-56 | an empty buffer whose capacity is the sample rate, a 100 ms window, and both counters at zero |
| Mic.Microphone.NeededSamples | src/mic.rs:67-71 | the samples that should have been consumed by the end of the next window, less those already consumed; 8 per ms of window |
| Mic.Microphone.Ready | src/mic.rs:188-192 | ready exactly when the buffer holds at least the needed samples; then the window is at most one second |
| Mic.Microphone.Push | src/mic.rs:35-42 | appends as many samples as fit below the capacity, in order; the rest is dropped and reported |
| Mic.Microphone.Consume | src/mic.rs:73-93 | when not ready: `None` and no change. When ready: exactly the needed samples leave the front of the buffer in order; both counters advance by one window; the result is a voiced note with no lyric, the window's length and the detected pitch; the sample invariant is kept. The window must be at least 1 ms, as an empty window panics at src/mic.rs:157 |
| Mic.Microphone.Clear | src/mic.rs:95-99 | the buffer is emptied |
| Mic.Microphone.SetWindowLength | src/mic.rs:101-103 | the window becomes the argument and the invariant is kept |
| Mic.LongWindowNeverReady | src/mic.rs:30-32 | a window longer than one second can never become ready, since the buffer holds at most one second of samples |
| Mic.FirstNegative | src/mic.rs:165-170 | the first index holding a negative value, or `None` exactly when no value is negative |
| Mic.ZeroCross | src/mic.rs:164-170 | 0 when no value is negative; otherwise the index of the first negative value, with every earlier value non-negative |
| Mic.PeakLag | src/mic.rs:165-178 | the earliest position of the maximum over lags `max(zero_cross, 1)` to `n − 1`, or the zero crossing itself when that range is empty |
| Mic.CrossingCountBound | src/mic.rs:105-115 | at most one crossing per adjacent pair of values |
| Mic.NonNegativeNoCrossings | src/mic.rs:105-113 | values that never go negative never cross |
| Mic.ZeroCrossings | src/mic.rs:105-116 | the number of adjacent pairs that change sign, at most one less than the length |
| SongPanel.ChunkCountAsWritten | src/song_panel.rs:102 | the `u32` count `(num + 20 - 1) / 20` of a release build, both steps wrapping: `ceil(num / 20)` while `num + 19` fits in `u32`, and 0 for the 19 largest lengths |
| SongPanel.ChunkCountAsWrittenWraps | src/song_panel.rs:102-103 | for a note of `2^32 − 1` ms, the `u32` count as written is 0 |
| SongPanel.ChunkCount | src/song_panel.rs:102 | `ceil(L / 20)`, between 1 and `L` for `L ≥ 1` |
| SongPanel.ChunkCountAgrees | src/song_panel.rs:102 | below the wrap-around, the count as written is `ceil(L / 20)` |
| SongPanel.SplitIntoChunks | src/song_panel.rs:100-107 | the vector filled with the quotient, with the remainder then added to its first slot, is `Chunks(L)`; the length must be at least 1 and small enough that `L + 19` fits in `u32`, as the source panics otherwise |
| SongPanel.ChunksSum | src/song_panel.rs:100-107 | the chunks of a note sum to exactly its length |
| SongPanel.ChunksShape | src/song_panel.rs:102-105 | `ceil(L / 20)` chunks; every chunk after the first is `L / k`; the first is `L / k + L mod k` |
| SongPanel.ChunkBounds | src/song_panel.rs:102-105 | every chunk lies between 1 and `L`; every chunk after the first is at most 20 |
| SongPanel.ChunkExamples | src/song_panel.rs:100-107 | 45 → 15, 15, 15; 50 → 18, 16, 16; and 199 has a first chunk of 28 |
| SongPanel.AppendSung | src/song_panel.rs:127-130 | the note goes at the end of phrase `p`, which is first created if `p` is one past the end; every other phrase is unchanged |
| SongPanel.AppendSungLength | src/song_panel.rs:127-130 | appending a note to the last phrase adds its length to the track's length |
| SongPanel.AppendSungVoiced | src/song_panel.rs:127-130 | appending a voiced note with no lyric keeps every sung note voiced and without a lyric |
| SongPanel.MirrorsAfterStep | src/song_panel.rs:118-135 | one pass of the tick loop, appending one note and advancing the cursor one chunk, keeps one sung note per chunk consumed |
| SongPanel.PhraseChunks | src/song_panel.rs:100-107 | the chunks of a phrase's first `count` notes, in order; as many as those notes have chunks |
| SongPanel.Lengths | src/song_panel.rs:127-130 | the lengths of the sung notes, one per note, in order |
| SongPanel.WindowsAfterStep | src/song_panel.rs:124-135 | appending a note as long as the current window (100 ms for the track's first note, the current chunk after that) and advancing the cursor keeps every sung note as long as its window |
| SongPanel.SungAfterStep | src/song_panel.rs:124-135 | one loop pass keeps both the one-note-per-chunk shape and the note lengths |
| SongPanel.FinishedSungShape | src/song_panel.rs:73-90 | at the end, the sung track has one phrase per backing phrase, each holding one note per chunk of that phrase |
| SongPanel.ShortNotesOneChunk | src/song_panel.rs:100-107 | notes of at most 20 ms give exactly one chunk each |
| SongPanel.ChunksAtLeastNotes | src/song_panel.rs:100-107 | every note of at least 1 ms gives at least one chunk |
| SongPanel.LongNoteMoreChunks | src/song_panel.rs:100-107 | one note longer than 20 ms gives more chunks than there are notes |
| SongPanel.FlattenAppendSung | src/song_panel.rs:127-130 | appending to the last phrase appends the note to the track's notes read in order |
| SongPanel.SungFromConcat | src/mic.rs:77-81 | windows taken from the rest of the samples, after the windows of earlier notes, continue those notes |
| SongPanel.SangNothing | src/song_panel.rs:109-147 | a tick that sings nothing consumes no samples |
| SongPanel.SangAppend | src/song_panel.rs:124-130 | appending the note of the buffer's first window sings that note and leaves the rest of the buffer |
| SongPanel.SangTrans | src/song_panel.rs:122-136 | two runs of singing in a row are one run: their notes, in order, come from consecutive windows |
| SongPanel.OpenVideo | src/song_panel.rs:44-52 | no video path panics; otherwise the outcome of `FrameSplitter::new`: an I/O error when the probe cannot run or the decoder does not start, a panic when the output does not parse, and otherwise a splitter on that path at frame 0 with the parsed dimensions |
| SongPanel.NewTrackSession | src/song_panel.rs:40-66 | a failure to open the video is the result; otherwise a fresh playing session on the first chunk of the first note, with an empty sung track, holding the opened splitter; elapsed time and goal are 0, the update instant is `now`, the new microphone has an empty buffer and the 100 ms window; both invariants hold |
| SongPanel.TrackSession.constructor | src/song_panel.rs:40-66 | playing, the cursor on the first chunk of the first note, that note's chunks, an empty sung track, both time counters at zero, the given splitter, and a new microphone; the invariants hold |
| SongPanel.TrackSession.Finish | src/song_panel.rs:68-71 | the state becomes `Finished` |
| SongPanel.TrackSession.NextChunk | src/song_panel.rs:73-90 | four cases: the next chunk of the same note; the first chunk of the next note, with its chunks; the first note of the next phrase, with its chunks; or `Finished` past the last phrase with `chunk_lengths` unchanged. The cursor invariant is kept |
| SongPanel.TrackSession.Ready | src/song_panel.rs:92-98 | ready exactly when the microphone is ready and the current chunk fits within the goal, cast to `u32` (elapsed time being zero) |
| SongPanel.TrackSession.Tick | src/song_panel.rs:109-147 | Playing: the goal grows by the time since the last update, and the loop ends finished or not ready. Paused: only the update instant moves. Finished: nothing changes. In every state `Sang` holds: sung phrases only grow; the notes added are, in order, the voiced windows taken from the front of the buffer, each with the pitch of its samples; and the buffer is exactly what is left after them. `WithinBudget` holds: every pass ran within the budget (every added note after the track's first is at most the goal as `u32`, and so was the first note's chunk), so together with `Sang` and the exit condition the loop stops at the first pass that is not ready. Through `Synced`, each sung note is as long as its window: 100 ms for the track's first note, its chunk for every other. Elapsed time is never written, and both invariants are kept |
| SongPanel.TrackSession.TickPaused | src/song_panel.rs:142-144 | paused: the update instant becomes `now`, nothing else changes, and both invariants are kept |
| SongPanel.TrackSession.TickPlaying | src/song_panel.rs:112-139 | the goal grows by the time since the last update, the update instant becomes `now`, then the loop runs; on exit it is finished or not ready, `Sang` holds, every pass fitted the new goal (`WithinBudget`), and both invariants are kept |
| SongPanel.TrackSession.SingWhileReady | src/song_panel.rs:118-139 | the `while self.ready()` loop: on exit it is finished or not ready, both invariants hold (so every sung note is as long as its window), `Sang` holds from the samples and sung phrases at entry, and every pass ran within the budget: each added note after the track's first is at most the goal as `u32`, and the first note's chunk was too (`WithinBudget`) |
| SongPanel.TrackSession.SingPass | src/song_panel.rs:118-136 | one pass while ready with the cursor on a note: the note sung fits the budget, the buffer shrinks, and `Sang`, `WithinBudget` and both invariants carry over |
| SongPanel.BudgetAppend | src/song_panel.rs:92-98 | appending a note that passed the readiness gate keeps every added note within the budget |
| SongPanel.TrackSession.SungStep | src/song_panel.rs:122-136 | one loop pass keeps both invariants; exactly the first window leaves the buffer, and its note, one window long (100 ms for the track's first note, the current chunk otherwise), voiced, with no lyric and the pitch of those samples, is appended at the cursor's phrase |
| SongPanel.TrackSession.Advance | src/song_panel.rs:132-135 | after a note is appended, advancing the cursor one chunk and setting the window to the new chunk restores both invariants |
| SongPanel.TrackSession.AppendMicNote | src/song_panel.rs:124-130 | exactly the first window leaves the buffer; its note, one window long, voiced, with no lyric and the pitch of those samples, is appended at the cursor's phrase; the sung length stays equal to the microphone's elapsed time |
| SongPanel.CurrentChunkBounds | src/song_panel.rs:133-135 | the current chunk is at least 1 ms and fits in a `u32` |

## Left out

- Autocorrelation and the pitch arithmetic (src/mic.rs:84-85, 118-160, 181-185): these are FFT calls and floating-point `log2`/`floor`. The pitch is the uninterpreted `pitchOf`, and the autocorrelation is an input.
- The division that turns the zero-crossing count into a rate (src/mic.rs:114) is floating point. Only the count is modelled, and the rate is unused by the source anyway.
- `Microphone::new`'s device and stream setup, `play`, `pause` and the `Stream` impl (src/mic.rs:22-45, 59-65, 195-207): foreign audio I/O. The stream pause inside `finish` is left out for the same reason.
- The ring buffer's lock-free, cross-thread behaviour is not modelled. The buffer is a sequential FIFO, and the capture callback is the method `Push`.
- `Instant::now()` is replaced by a `now` parameter. Times are whole milliseconds, so sub-millisecond durations and rounding in `as_millis` are not modelled.
- `Duration::saturating_add` is plain addition over unbounded naturals, since its bound is out of practical reach.
- `TrackSession::draw`, `note_path` and `note_to_frame_transform` (src/song_panel.rs:149-281): rendering and float geometry.
- `TrackSession`'s font field is used only by `draw`. The frame splitter is held but only `draw` reads frames from it.
- The pitch difference in `tick` (src/song_panel.rs:125-126) is computed and discarded, so it is not modelled.
- `song.tracks.values().next()` depends on the dictionary's iteration order. The session takes that backing track as a constructor argument.
- SongPanel.TrackSession.constructor: requires a well-formed backing track (at least one phrase, no empty phrase, and every note at least 1 ms and short enough that its length plus 19 fits in `u32`). The source panics only when its cursor reaches the offending phrase or note. `SongPanel.NewTrackSession` has the same requirement.
- SongPanel.SplitIntoChunks: the lengths it refuses are the ones for which a release build panics (0, and the 19 largest `u32` values); these panics are preconditions, not results. It accepts `2^32 − 20`, where a release build computes the right chunks but a debug build panics at `num + 20`; the model follows the release build there.
- SongLibrary.SongLibrary.SelectPrevious: the wrap from 0 on an empty library (src/song_library.rs:95), where `songs.len() - 1` underflows, is a precondition rather than a modelled `usize::MAX` selection or panic.
- SongLibrary.SongLibrary.Select: on an empty library `songs.len() - 1` underflows (src/song_library.rs:101); this is a precondition rather than a modelled `usize::MAX` selection or panic.
- SongPanel.NewTrackSession: the microphone device's `expect` (src/song_panel.rs:47) is foreign audio I/O and is taken to succeed.
- `TrackView::draw`, `important_area` and `on_event` (src/song_view.rs:22-187): terminal UI and calls into a track editor that is not part of this model.
- Mic.Microphone.Consume: requires a window of at least 1 ms, because an empty window makes `auto.get(0).unwrap()` panic (src/mic.rs:157); that panic is not modelled as a result. Every caller passes a chunk length, which is at least 1.
- Mic.ZeroCrossings: requires a non-empty sequence, because `v.get(0).unwrap()` panics on an empty one (src/mic.rs:106); that panic is not modelled as a result.
- SongView.PadToWidth: a Rust string is measured in bytes, and one `char` here stands for one byte. So the panic when the cut falls inside a UTF-8 character is not modelled.
- `read_songs` and `read_song` (src/song_library.rs:20-81) scan the filesystem. `SongLibrary`'s constructor takes the song list.
- `Image` loading and textures (src/song.rs:50-90): image decoding and the GUI toolkit. An image is its optional pixel data.
- `initialize_pipe`, the probe process and `read_exact` (src/frame_splitter.rs:38-72) are external processes. Their outcomes are parameters: the probe's output, whether the decoder started, and the pipe's bytes.
- FrameSplitting.NextFrame: arithmetic overflow is treated as a panic (a debug build), and `usize` is taken as 64 bits.
- src/main.rs: the application loop and message dispatch are outside the core.
- The diagnostic output is not modelled: `ready`'s print of the two time counters (src/song_panel.rs:95), `tick`'s "DONE" (src/song_panel.rs:140), `read_dimensions`' print of the path (src/frame_splitter.rs:71), and the capture callback's overflow message (src/mic.rs:40).
- That ticking eventually reaches `Finished` is not proved, because it depends on the clock and on samples arriving. What each tick preserves is proved.

## Findings

| source | as written | input that shows it | evidently intended | confidence | as-written member | corrected member |
|---|---|---|---|---|---|---|
| src/song_panel.rs:102-103 | the chunk count `(num + 20 - 1) / 20` is computed in `u32`, and for the 19 largest lengths it wraps to 0 | a note of 4294967295 ms: the count is 0, then `num % k` divides by zero (`SongPanel.ChunkCountAsWrittenWraps`) | `ceil(num / 20)` chunks that sum to `num` | not executed | SongPanel.ChunkCountAsWritten | SongPanel.ChunksSum |
