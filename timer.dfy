/**
 * The pausable stopwatch (src/timer.rs). Instants and durations are whole
 * milliseconds; every operation that reads the clock takes the current
 * instant `now` as a parameter. `Instant::duration_since` saturates at zero.
 */
module Timers {
  import opened Time

  class Timer {
    var lastTouch: nat
    var timeProcessed: nat
    var paused: bool
    var lastResumeTime: nat
    var lastPauseTime: nat
    var elapsedTime: nat
    var elapsedTimeSinceTouch: nat

    /** `Timer::new`: paused, with every counter at zero and every instant at `now`. */
    constructor (now: nat)
      ensures paused
      ensures elapsedTime == 0 && timeProcessed == 0 && elapsedTimeSinceTouch == 0
      ensures lastTouch == now && lastResumeTime == now && lastPauseTime == now
    {
      lastTouch, timeProcessed, paused := now, 0, true;
      lastResumeTime, lastPauseTime := now, now;
      elapsedTime, elapsedTimeSinceTouch := 0, 0;
    }

    /**
     * `elapsed_time`: while running, the stored value is overwritten with the
     * time since the last resume (not added to it) and returned; while paused
     * the stored value is returned.
     */
    method ElapsedTime(now: nat) returns (d: nat)
      modifies this`elapsedTime
      ensures !paused ==> elapsedTime == Since(now, lastResumeTime)
      ensures paused ==> elapsedTime == old(elapsedTime)
      ensures d == elapsedTime
    {
      if !paused {
        elapsedTime := Since(now, lastResumeTime);
      }
      d := elapsedTime;
    }

    /** `touch`: restarts the secondary stopwatch. */
    method Touch(now: nat)
      modifies this`lastTouch, this`elapsedTimeSinceTouch
      ensures lastTouch == now && elapsedTimeSinceTouch == 0
    {
      lastTouch := now;
      elapsedTimeSinceTouch := 0;
    }

    /**
     * `duration_since_touch`: the stored counter, plus (while running) the time
     * since the later of the last touch and the last resume.
     */
    function DurationSinceTouch(now: nat): (d: nat)
      reads this
      ensures paused ==> d == elapsedTimeSinceTouch
      ensures !paused && now >= Max(lastTouch, lastResumeTime) ==>
                d == elapsedTimeSinceTouch + (now - Max(lastTouch, lastResumeTime))
      ensures d >= elapsedTimeSinceTouch
    {
      elapsedTimeSinceTouch + (if paused then 0 else Since(now, Max(lastTouch, lastResumeTime)))
    }

    /** `process`: declares `time` more of the elapsed time as used. */
    method Process(time: nat)
      modifies this`timeProcessed
      ensures timeProcessed == old(timeProcessed) + time
    {
      timeProcessed := timeProcessed + time;
    }

    /** `time_left_to_process`: refreshes the elapsed time as `elapsed_time` does, then subtracts what was used. */
    method TimeLeftToProcess(now: nat) returns (d: nat)
      modifies this`elapsedTime
      ensures !paused ==> elapsedTime == Since(now, lastResumeTime)
      ensures paused ==> elapsedTime == old(elapsedTime)
      ensures d == SaturatingSub(elapsedTime, timeProcessed)
      ensures d <= elapsedTime
      ensures elapsedTime >= timeProcessed ==> d + timeProcessed == elapsedTime
    {
      if !paused {
        elapsedTime := Since(now, lastResumeTime);
      }
      d := SaturatingSub(elapsedTime, timeProcessed);
    }

    /**
     * `pause`: on a running timer, adds the current interval to the elapsed
     * time and to the time since touch, and marks the timer paused; on a
     * paused timer, does nothing.
     */
    method Pause(now: nat)
      modifies this
      ensures old(paused) ==> unchanged(this)
      ensures !old(paused) ==>
                && paused
                && elapsedTime == old(elapsedTime) + Since(now, lastResumeTime)
                && elapsedTimeSinceTouch == old(elapsedTimeSinceTouch) + Since(now, Max(lastTouch, lastResumeTime))
                && lastPauseTime == now
      ensures lastTouch == old(lastTouch) && lastResumeTime == old(lastResumeTime)
      ensures timeProcessed == old(timeProcessed)
    {
      if !paused {
        elapsedTime := elapsedTime + Since(now, lastResumeTime);
        elapsedTimeSinceTouch := elapsedTimeSinceTouch + Since(now, Max(lastTouch, lastResumeTime));
        lastPauseTime := now;
        paused := true;
      }
    }

    /** `resume`: marks the timer running from `now`; the counters are kept. */
    method Resume(now: nat)
      modifies this`paused, this`lastResumeTime
      ensures !paused && lastResumeTime == now
    {
      paused := false;
      lastResumeTime := now;
    }

    /** `is_paused`. */
    function IsPaused(): (b: bool)
      reads this
      ensures b <==> paused
    {
      paused
    }
  }

  /** Pausing a second time has no further effect on what `elapsed_time` reports. */
  method PauseTwice(t: Timer, now1: nat, now2: nat) returns (once: nat, twice: nat)
    modifies t
    ensures once == twice
  {
    t.Pause(now1);
    once := t.ElapsedTime(now1);
    t.Pause(now2);
    twice := t.ElapsedTime(now2);
  }

  /** Within one running interval, a later reading of `elapsed_time` is never smaller. */
  method ElapsedNeverDecreases(t: Timer, now1: nat, now2: nat) returns (d1: nat, d2: nat)
    requires !t.paused && now1 <= now2
    modifies t
    ensures d1 <= d2
  {
    d1 := t.ElapsedTime(now1);
    d2 := t.ElapsedTime(now2);
  }

  /** Time left to process is never more than what has elapsed, and shrinks by what is processed. */
  method ProcessedTimeIsSubtracted(t: Timer, now: nat, used: nat) returns (before: nat, after: nat)
    modifies t
    ensures after == SaturatingSub(before, used)
  {
    before := t.TimeLeftToProcess(now);
    t.Process(used);
    after := t.TimeLeftToProcess(now);
  }

  /**
   * While running, `elapsed_time` overwrites the accumulated time with the
   * current interval: after running 0..10 and 20..25 (15 ms in all) it reports
   * 5, and a pause right after that stores 10.
   */
  method ElapsedReportsCurrentIntervalOnly() returns (reported: nat, afterPause: nat)
    ensures reported == 5 && afterPause == 10
  {
    var t := new Timer(0);
    t.Resume(0);
    t.Pause(10);
    t.Resume(20);
    reported := t.ElapsedTime(25);
    t.Pause(25);
    afterPause := t.elapsedTime;
  }
}
