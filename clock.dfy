/** The monotone clock the timers read (std::chrono::high_resolution_clock in
    the harness), made an explicit object: only the environment moves it on,
    and only forwards. Readings are nanoseconds. */
module Clocks {

  class Clock {
    var now: nat

    constructor (start: nat)
      ensures now == start
    {
      now := start;
    }

    /** Time passes: user code runs, or a rank waits at a barrier. */
    method Advance(duration: nat)
      modifies this
      ensures now == old(now) + duration
    {
      now := now + duration;
    }
  }
}
