/**
 * The microphone (src/mic.rs): a bounded FIFO of captured samples, the
 * bookkeeping that turns elapsed milliseconds into sample counts, and the
 * comparison-only parts of the pitch detector.
 *
 * Samples are `real`s standing for the `f32`s of the capture stream. The
 * capture callback is the method `Push`; the session side calls `Ready`,
 * `Consume`, `Clear` and `SetWindowLength`. The pitch the detector derives
 * from a window of samples is the uninterpreted function `pitchOf`.
 */
module Mic {
  import opened Wrappers
  import opened Notes
  import opened Numeric

  /** The rate the input stream is configured with, in samples per second. */
  const SAMPLE_RATE: nat := 8000

  /** The analysis window a new microphone starts with, in milliseconds. */
  const INITIAL_WINDOW_MS: nat := 100

  function Min(a: nat, b: nat): (m: nat)
    ensures m <= a && m <= b && (m == a || m == b)
  {
    if a <= b then a else b
  }

  class Microphone {
    /** The ring buffer's capacity: one second of samples. */
    const capacity: nat
    /** The samples captured and not yet consumed, oldest first. */
    var buffer: seq<real>
    var windowLength: nat
    var numSamplesProcessed: nat
    var elapsedTime: nat

    /**
     * The capacity is the sample rate, the buffer never holds more, and the
     * samples consumed so far are exactly the elapsed time at the sample rate.
     */
    ghost predicate Valid()
      reads this
    {
      && capacity == SAMPLE_RATE
      && |buffer| <= capacity
      && numSamplesProcessed == elapsedTime * SAMPLE_RATE / 1000
    }

    /** `Microphone::new` without the device setup. */
    constructor ()
      ensures Valid()
      ensures buffer == [] && windowLength == INITIAL_WINDOW_MS
      ensures numSamplesProcessed == 0 && elapsedTime == 0
    {
      capacity := SAMPLE_RATE;
      buffer := [];
      windowLength := INITIAL_WINDOW_MS;
      numSamplesProcessed := 0;
      elapsedTime := 0;
    }

    /**
     * `needed_samples`: the samples that should have been consumed by the end
     * of the next window, less those already consumed. The invariant keeps the
     * `u128` subtraction from going below zero, and at 8000 samples per second
     * the result is 8 samples per millisecond of window.
     */
    function NeededSamples(): (n: nat)
      reads this
      requires Valid()
      ensures n + numSamplesProcessed == (elapsedTime + windowLength) * SAMPLE_RATE / 1000
      ensures n == 8 * windowLength
    {
      (elapsedTime + windowLength) * SAMPLE_RATE / 1000 - numSamplesProcessed
    }

    /** `ready`: the buffer holds at least the needed samples. */
    function Ready(): (r: bool)
      reads this
      requires Valid()
      ensures r <==> |buffer| >= 8 * windowLength
      ensures r ==> windowLength <= 1000
    {
      |buffer| >= NeededSamples()
    }

    /**
     * The capture callback: `push_slice` appends as many samples as fit and
     * drops the rest; a short push is reported (on standard error, here as
     * `overrun`).
     */
    method Push(data: seq<real>) returns (pushed: nat, overrun: bool)
      requires Valid()
      modifies this`buffer
      ensures Valid()
      ensures pushed == Min(|data|, capacity - |old(buffer)|)
      ensures buffer == old(buffer) + data[..pushed]
      ensures overrun <==> pushed < |data|
      ensures !overrun ==> buffer == old(buffer) + data
      ensures overrun ==> |buffer| == capacity
    {
      pushed := Min(|data|, capacity - |buffer|);
      buffer := buffer + data[..pushed];
      overrun := pushed < |data|;
    }

    /**
     * `consume`: when not ready, `None` and nothing changes. When ready, the
     * needed samples are taken from the front of the buffer in order, the
     * counters advance by one window, and the result is a voiced note with an
     * empty lyric whose length is the window (cast to `u32`) and whose pitch is
     * that detected in the samples taken. The window must be at least 1 ms:
     * an empty window leaves the detector no samples, and its `unwrap` of the
     * first autocorrelation value panics.
     */
    method Consume(pitchOf: seq<real> -> Int8) returns (r: Option<Note>)
      requires Valid() && windowLength >= 1
      modifies this`buffer, this`numSamplesProcessed, this`elapsedTime
      ensures Valid()
      ensures !old(Ready()) ==> r.None? && unchanged(this)
      ensures old(Ready()) ==>
                var taken := old(buffer)[..old(NeededSamples())];
                && buffer == old(buffer)[old(NeededSamples())..]
                && old(buffer) == taken + buffer
                && numSamplesProcessed == old(numSamplesProcessed) + old(NeededSamples())
                && elapsedTime == old(elapsedTime) + windowLength
                && r == Some(Note(windowLength % U32_LIMIT, pitchOf(taken), true, ""))
    {
      if !Ready() {
        r := None;
      } else {
        var needed := NeededSamples();
        var samples := buffer[..needed];
        buffer := buffer[needed..];
        var pitch := pitchOf(samples);
        numSamplesProcessed := numSamplesProcessed + needed;
        elapsedTime := elapsedTime + windowLength;
        r := Some(NewNote(windowLength % U32_LIMIT, pitch, true, ""));
      }
    }

    /** `clear`: discards every buffered sample. */
    method Clear()
      requires Valid()
      modifies this`buffer
      ensures Valid() && buffer == []
    {
      buffer := [];
    }

    /** `set_window_length`, in milliseconds. */
    method SetWindowLength(windowLength: nat)
      requires Valid()
      modifies this`windowLength
      ensures Valid() && this.windowLength == windowLength
    {
      this.windowLength := windowLength;
    }
  }

  /** A window longer than the buffer can ever hold never becomes ready. */
  lemma LongWindowNeverReady(m: Microphone)
    requires m.Valid() && m.windowLength > 1000
    ensures !m.Ready()
  {
  }

  // ------------------------------------------------------------ peak search

  /** `iter().position(|x| x < 0.0)`: the first negative value, if any. */
  function FirstNegative(s: seq<real>): (r: Option<nat>)
    ensures r.Some? ==> r.value < |s| && s[r.value] < 0.0
    ensures r.Some? ==> forall j :: 0 <= j < r.value ==> s[j] >= 0.0
    ensures r.None? <==> forall j :: 0 <= j < |s| ==> s[j] >= 0.0
  {
    if s == [] then None
    else if s[0] < 0.0 then Some(0)
    else match FirstNegative(s[1..])
      case None => None
      case Some(i) => Some(i + 1)
  }

  /** The first zero crossing of the autocorrelation, or 0 when it never goes negative. */
  function ZeroCross(auto: seq<real>): (z: nat)
    ensures (forall j :: 0 <= j < |auto| ==> auto[j] >= 0.0) ==> z == 0
    ensures (exists j :: 0 <= j < |auto| && auto[j] < 0.0) ==> z < |auto| && auto[z] < 0.0
    ensures forall j :: 0 <= j < z && j < |auto| ==> auto[j] >= 0.0
  {
    match FirstNegative(auto)
    case None => 0
    case Some(z) => z
  }

  /** `k` is the earliest position of the largest value of `s[lo..hi]`. */
  ghost predicate IsEarliestMax(s: seq<real>, lo: nat, hi: nat, k: nat)
    requires hi <= |s|
  {
    && lo <= k < hi
    && (forall j :: lo <= j < hi ==> s[j] <= s[k])
    && (forall j :: lo <= j < k ==> s[j] < s[k])
  }

  /**
   * The lag search in `frequency`: `auto` is the normalised autocorrelation of
   * `n` samples (so it has `2n` values). Starting at the first zero crossing,
   * the lag of the largest value below `n` is kept, earliest first; the test
   * `max_index == 0` skips lag 0. So the result is the earliest maximum over
   * lags `max(zero_cross, 1)` to `n - 1`, or the zero crossing itself when that
   * range is empty. (`Option` comparison of two `Some`s is comparison of the values.)
   */
  method PeakLag(auto: seq<real>, n: nat) returns (maxIndex: nat)
    requires |auto| == 2 * n
    ensures var z := ZeroCross(auto);
            var lo := if z == 0 then 1 else z;
            && (lo < n ==> IsEarliestMax(auto, lo, n, maxIndex))
            && (lo >= n ==> maxIndex == z)
  {
    var zeroCross := ZeroCross(auto);
    ghost var lo := if zeroCross == 0 then 1 else zeroCross;
    maxIndex := zeroCross;
    var lag := zeroCross;
    while lag < n
      invariant zeroCross <= lag
      invariant lag > zeroCross ==> lag <= n
      invariant lag <= lo ==> maxIndex == zeroCross
      invariant lag > lo ==> IsEarliestMax(auto, lo, lag, maxIndex)
    {
      if auto[lag] > auto[maxIndex] || maxIndex == 0 {
        maxIndex := lag;
      }
      lag := lag + 1;
    }
  }

  // ------------------------------------------------------- zero crossings

  /** The sign test of `zero_crossing_rate`: one value is negative and the other is not. */
  predicate Crosses(prev: real, elem: real) {
    (elem < 0.0 && prev >= 0.0) || (elem >= 0.0 && prev < 0.0)
  }

  /** The number of adjacent pairs of `v` that change sign. */
  function CrossingCount(v: seq<real>): (count: nat) {
    if |v| <= 1 then 0
    else CrossingCount(v[..|v| - 1]) + (if Crosses(v[|v| - 2], v[|v| - 1]) then 1 else 0)
  }

  /** At most one crossing per adjacent pair. */
  lemma {:induction false} CrossingCountBound(v: seq<real>)
    requires |v| >= 1
    ensures CrossingCount(v) <= |v| - 1
  {
    if |v| > 1 {
      CrossingCountBound(v[..|v| - 1]);
    }
  }

  /** Values that never go negative never cross. */
  lemma {:induction false} NonNegativeNoCrossings(v: seq<real>)
    requires forall i :: 0 <= i < |v| ==> v[i] >= 0.0
    ensures CrossingCount(v) == 0
  {
    if |v| > 1 {
      NonNegativeNoCrossings(v[..|v| - 1]);
    }
  }

  /**
   * The counting loop of `zero_crossing_rate` (the division that turns the
   * count into a rate is floating point and is not modelled). The first value
   * is compared with itself, so it never counts; `v` must be non-empty, as the
   * `unwrap` on its first element demands.
   */
  method ZeroCrossings(v: seq<real>) returns (count: nat)
    requires |v| > 0
    ensures count == CrossingCount(v)
    ensures count <= |v| - 1
  {
    count := 0;
    var prev := v[0];
    for i := 0 to |v|
      invariant i == 0 ==> prev == v[0] && count == 0
      invariant i > 0 ==> prev == v[i - 1] && count == CrossingCount(v[..i])
    {
      if Crosses(prev, v[i]) {
        count := count + 1;
      }
      assert v[..i + 1][..i] == v[..i];
      prev := v[i];
    }
    assert v[..|v|] == v;
    CrossingCountBound(v);
  }
}
