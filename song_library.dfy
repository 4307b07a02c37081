/**
 * The song library's selection cursor (src/song_library.rs): an index into the
 * list of songs that `select_next` moves forward cyclically, `select_previous`
 * moves backward cyclically and `select` sets with clamping.
 */
module SongLibrary {
  import opened Songs
  import opened Numeric

  /** The index `select_next` moves to from `i` in a library of `n` songs. */
  function NextIndex(i: nat, n: nat): (r: nat)
    ensures i + 1 < n ==> r == i + 1
    ensures i + 1 >= n ==> r == 0
    ensures n > 0 ==> r < n
  {
    if i + 1 >= n then 0 else i + 1
  }

  /** The index `select_previous` moves to from `i`; it needs a song to wrap to. */
  function PreviousIndex(i: nat, n: nat): (r: nat)
    requires i > 0 || n > 0
    ensures i > 0 ==> r == i - 1
    ensures i == 0 ==> r == n - 1
    ensures i <= n && n > 0 ==> r < n
  {
    if i > 0 then i - 1 else n - 1
  }

  /** The index `select(i)` stores: `i` itself when in range, else the last song. */
  function ClampedIndex(i: nat, n: nat): (r: nat)
    requires n > 0
    ensures r < n
    ensures i < n ==> r == i
    ensures i >= n ==> r == n - 1
  {
    if i >= n then n - 1 else i
  }

  /** From an in-range index, stepping forward then back returns to it. */
  lemma PreviousUndoesNext(i: nat, n: nat)
    requires i < n
    ensures PreviousIndex(NextIndex(i, n), n) == i
  {
  }

  /** From an in-range index, stepping back then forward returns to it. */
  lemma NextUndoesPrevious(i: nat, n: nat)
    requires i < n
    ensures NextIndex(PreviousIndex(i, n), n) == i
  {
  }

  /** The index after `steps` calls of `select_next` starting from `i`. */
  function StepForward(i: nat, n: nat, steps: nat): (r: nat)
    decreases steps
  {
    if steps == 0 then i else NextIndex(StepForward(i, n, steps - 1), n)
  }

  /** Stepping forward `steps` times from `i` lands on `(i + steps) mod n`. */
  lemma {:induction false} StepForwardIsModular(i: nat, n: nat, steps: nat)
    requires i < n
    ensures StepForward(i, n, steps) == (i + steps) % n
  {
    if steps > 0 {
      StepForwardIsModular(i, n, steps - 1);
      ModStep(i + steps - 1, n);
    }
  }

  /** One forward step on a residue is the residue of the successor. */
  lemma ModStep(a: nat, n: nat)
    requires n > 0
    ensures NextIndex(a % n, n) == (a + 1) % n
  {
    var r := a % n;
    if r + 1 < n {
      assert (a + 1) % n == r + 1 by { DivShift(a, n, r + 1); }
    } else {
      assert (a + 1) % n == 0 by { DivShift(a, n, 0); }
    }
  }

  /** Moving one step from `a` shifts the remainder by one, wrapping at `n`. */
  lemma DivShift(a: nat, n: nat, r': nat)
    requires n > 0 && r' < n
    requires r' == (if a % n + 1 < n then a % n + 1 else 0)
    ensures (a + 1) % n == r'
  {
    var q := a / n;
    assert a == n * q + a % n;
    var q' := if r' == 0 then q + 1 else q;
    assert a + 1 == n * q' + r';
    LemmaFundamentalMod(a + 1, n, q', r');
  }

  /** Remainder uniqueness: `x == n*q + r` with `0 <= r < n` fixes `x % n == r`. */
  lemma LemmaFundamentalMod(x: nat, n: nat, q: int, r: nat)
    requires n > 0 && r < n && x == n * q + r
    ensures x % n == r
  {
    var q0, r0 := x / n, x % n;
    assert n * q + r == n * q0 + r0;
    if q > q0 {
      MulAtLeast(n, q - q0);
    } else if q < q0 {
      MulAtLeast(n, q0 - q);
    }
  }

  class SongLibrary {
    const songs: seq<Song>
    var selectionIndex: nat

    /** `SongLibrary::new` with the directory scan already done: the first song is selected. */
    constructor (songs: seq<Song>)
      ensures this.songs == songs && selectionIndex == 0
    {
      this.songs := songs;
      selectionIndex := 0;
    }

    method SelectNext()
      modifies this`selectionIndex
      ensures selectionIndex == NextIndex(old(selectionIndex), |songs|)
      ensures |songs| > 0 ==> selectionIndex < |songs|
      ensures songs == [] ==> selectionIndex == 0
    {
      selectionIndex := selectionIndex + 1;
      if selectionIndex >= |songs| {
        selectionIndex := 0;
      }
    }

    /** On an empty library at index 0, `songs.len() - 1` underflows; that is excluded. */
    method SelectPrevious()
      requires selectionIndex > 0 || |songs| > 0
      modifies this`selectionIndex
      ensures selectionIndex == PreviousIndex(old(selectionIndex), |songs|)
      ensures old(selectionIndex) <= |songs| && |songs| > 0 ==> selectionIndex < |songs|
    {
      if selectionIndex > 0 {
        selectionIndex := selectionIndex - 1;
      } else {
        selectionIndex := |songs| - 1;
      }
    }

    /** On an empty library, `songs.len() - 1` underflows; that is excluded. */
    method Select(i: nat)
      requires |songs| > 0
      modifies this`selectionIndex
      ensures selectionIndex == ClampedIndex(i, |songs|)
      ensures selectionIndex < |songs|
    {
      if i >= |songs| {
        selectionIndex := |songs| - 1;
      } else {
        selectionIndex := i;
      }
    }
  }
}
