/**
 * The `Instant` and `Duration` arithmetic the core relies on, over whole
 * milliseconds: an instant is the number of milliseconds since some origin.
 */
module Time {

  /** `Duration::saturating_sub`: `a - b`, or zero if `b` is larger. */
  function SaturatingSub(a: nat, b: nat): (d: nat)
    ensures a >= b ==> d + b == a
    ensures a < b ==> d == 0
  {
    if a >= b then a - b else 0
  }

  /**
   * `now.duration_since(t)`: the time from `t` to `now`, or zero if `t` is
   * later (the standard library saturates here too).
   */
  function Since(now: nat, t: nat): (d: nat)
    ensures now >= t ==> d + t == now
    ensures now < t ==> d == 0
  {
    SaturatingSub(now, t)
  }

  /** `Ord::max` on instants. */
  function Max(a: nat, b: nat): (m: nat)
    ensures m >= a && m >= b && (m == a || m == b)
  {
    if a >= b then a else b
  }
}
