// The `Cooldown` timer the core reads and re-arms. Its clock is outside the
// model: `cold` and `normalized` hold what the timer reports at the moment a
// system runs, and `resets` records every call to `reset()`.

module Timers {

  class Cooldown {
    const duration: real
    /** Expired (`cold`); `hot` is its negation. */
    var cold: bool
    /** Elapsed fraction of `duration`, as reported by the timer. */
    var normalized: real
    /** How many times `reset()` has been called. */
    var resets: nat

    /** `Cooldown(duration, cold=cold)`: a fresh timer, either just started or already expired. */
    constructor (duration: real, cold: bool := false)
      ensures this.duration == duration && this.cold == cold
      ensures normalized == (if cold then 1.0 else 0.0)
      ensures resets == 0
    {
      this.duration := duration;
      this.cold := cold;
      normalized := if cold then 1.0 else 0.0;
      resets := 0;
    }

    /** `hot`: the countdown has not run out yet. */
    predicate Hot()
      reads this
    {
      !cold
    }

    /** `reset()`: restart the countdown. With a positive duration the timer is
        hot at that instant and nothing has elapsed; what a zero or negative
        duration reports right after a reset is not promised. */
    method Reset()
      modifies this
      ensures resets == old(resets) + 1
      ensures duration > 0.0 ==> !cold && normalized == 0.0
    {
      resets := resets + 1;
      cold := false;
      normalized := 0.0;
    }
  }
}
