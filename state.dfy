/** The iteration protocol of include/bench/bench.hpp: a State holds the
    iteration budget, the bytes-processed figure and a handle on the
    benchmark's timer; its Iterator is what a range-for over the State steps
    through.

    Every call the protocol makes on the shared timer, and every barrier, is
    logged in the State's ghost `trace`; State.Valid ties the timer to that
    log: the timer is exactly what replaying the log on the timer the State
    was built with gives. `mpi` stands for the BENCH_USE_MPI build switch. */
module Iteration {
  import opened Timers
  import opened Clocks

  const U64_LIMIT: nat := 0x1_0000_0000_0000_0000

  /** uint64_t */
  type u64 = x: nat | x < 0x1_0000_0000_0000_0000

  /** `--remaining_` on a uint64_t: one less, and 0 wraps to the largest value. */
  function Decrement(x: u64): (r: u64)
    ensures (r + 1) % U64_LIMIT == x
    ensures x > 0 ==> r == x - 1
  {
    if x == 0 then U64_LIMIT - 1 else x - 1
  }

  /** What the loop test `it != end` logs: with MPI and the barrier on, a
      barrier and a resume; then, whatever the remaining count, a pause.
      `now` is the clock reading after the barrier. */
  function NotEqualEvents(barrier: bool, now: nat): seq<Event> {
    (if barrier then [Barrier, Resume(now)] else []) + [Pause(now)]
  }

  /** What `++it` logs: a pause, only with MPI and the barrier on. */
  function IncrementEvents(barrier: bool, now: nat): seq<Event> {
    if barrier then [Pause(now)] else []
  }

  /** What one range-for over a State logs: end() resumes the timer at
      `started`, then the first loop test runs at `tested`. */
  function RangeForEvents(barrier: bool, started: nat, tested: nat): seq<Event> {
    [Resume(started)] + NotEqualEvents(barrier, tested)
  }

  /** A range-for over a paused timer charges it with everything from end()
      to the first loop test, including the wait at a leading barrier, and
      leaves it paused. */
  lemma RangeForCharges(s: TimerState, barrier: bool, started: nat, tested: nat)
    requires Wf(s) && s.paused && started <= tested
    ensures Chronological(RangeForEvents(barrier, started, tested), started)
    ensures var r := Replay(s, RangeForEvents(barrier, started, tested), started);
      && r.paused
      && r.elapsed == s.elapsed + (if s.kind == NoOp then 0 else tested - started)
  {
    var running := Resumed(s, started);
    var test := NotEqualEvents(barrier, tested);
    var pause := [Pause(tested)];
    assert pause[1..] == [];
    assert Replay(running, pause, tested) == Paused(running, tested);
    if barrier {
      var resume := [Resume(tested)] + pause;
      assert resume[1..] == pause;
      assert Chronological(resume, tested);
      assert Replay(running, resume, tested) == Replay(running, pause, tested);
      assert test == [Barrier] + resume && test[1..] == resume;
      assert Chronological(test, tested);
      ChronologicalFromEarlier(test, started, tested);
      assert Replay(running, test, started) == Replay(running, resume, started);
      assert Replay(running, resume, started) == Replay(running, pause, tested);
    } else {
      assert test == pause;
      assert Replay(running, test, started) == Paused(running, tested);
    }
    var evs := RangeForEvents(barrier, started, tested);
    assert evs[1..] == test;
    assert Replay(s, evs, started) == Replay(running, test, started);
  }

  /** Between two passes the protocol keeps a barrier's wait off the timer:
      `++it` pauses at `stepped`, the barrier runs until `released`, and the
      timer is charged only up to `stepped`. */
  lemma BarrierWaitNotCharged(s: TimerState, stepped: nat, released: nat)
    requires Wf(s) && !s.paused && s.start <= stepped <= released
    ensures Chronological(IncrementEvents(true, stepped) + NotEqualEvents(true, released), stepped)
    ensures Replay(s, IncrementEvents(true, stepped) + NotEqualEvents(true, released), stepped).elapsed
         == s.elapsed + (stepped - s.start)
  {
    var p := Paused(s, stepped);
    var pause := [Pause(released)];
    var resume := [Resume(released)] + pause;
    var test := [Barrier] + resume;
    var evs := [Pause(stepped)] + test;
    assert pause[1..] == [] && resume[1..] == pause && test[1..] == resume && evs[1..] == test;
    assert Chronological(resume, released);
    ChronologicalFromEarlier(test, stepped, released);
    assert Chronological(evs, stepped);
    assert Replay(p, resume, released) == Replay(Resumed(p, released), pause, released);
    assert Replay(Resumed(p, released), pause, released) == Paused(Resumed(p, released), released);
    assert Replay(p, test, stepped) == Replay(p, resume, stepped);
    assert Replay(p, resume, stepped) == Replay(p, resume, released);
    assert Replay(s, evs, stepped) == Replay(p, test, stepped);
    assert evs == IncrementEvents(true, stepped) + NotEqualEvents(true, released);
  }

  class State {
    const iterations: u64
    var bytesProcessed: u64
    var error: bool
    const timer: Timer
    const iterBarrier: bool
    const mpi: bool

    /** The events logged since construction, and the timer and clock
        reading at construction. */
    ghost var trace: seq<Event>
    ghost const initial: TimerState
    ghost const since: nat

    ghost predicate Valid(clock: Clock)
      reads this, timer, clock
    {
      && Wf(initial) && initial.kind == timer.kind
      && Behind(initial, since) && Chronological(trace, since)
      && Last(trace, since) <= clock.now
      && timer.Model() == Replay(initial, trace, since)
    }

    /** The timer is shared with the Benchmark, not owned; `clock` only fixes
        the reading the log starts from. */
    constructor (iterations: u64, timer: Timer, iterBarrier: bool, mpi: bool, ghost clock: Clock)
      requires timer.Valid() && Behind(timer.Model(), clock.now)
      ensures Valid(clock) && trace == [] && initial == timer.Model() && since == clock.now
      ensures this.iterations == iterations && bytesProcessed == 0 && !error
      ensures this.timer == timer && this.iterBarrier == iterBarrier && this.mpi == mpi
    {
      this.iterations := iterations;
      bytesProcessed := 0;
      error := false;
      this.timer := timer;
      this.iterBarrier := iterBarrier;
      this.mpi := mpi;
      trace := [];
      initial := timer.Model();
      since := clock.now;
    }

    method StartRunning(clock: Clock)
      requires Valid(clock)
      modifies this`trace, timer
      ensures Valid(clock)
      ensures trace == old(trace) + [Resume(clock.now)]
      ensures timer.Model() == Resumed(old(timer.Model()), clock.now)
    {
      ReplaySnoc(initial, trace, since, Resume(clock.now));
      timer.Resume(clock.now);
      trace := trace + [Resume(clock.now)];
    }

    method FinishRunning(clock: Clock)
      requires Valid(clock)
      modifies this`trace, timer
      ensures Valid(clock)
      ensures trace == old(trace) + [Pause(clock.now)]
      ensures timer.Model() == Paused(old(timer.Model()), clock.now)
    {
      ReplaySnoc(initial, trace, since, Pause(clock.now));
      timer.Pause(clock.now);
      trace := trace + [Pause(clock.now)];
    }

    /** MPI_Barrier(MPI_COMM_WORLD): this rank waits `wait` nanoseconds for
        the others; the timer is not touched. */
    method AwaitBarrier(clock: Clock, wait: nat)
      requires Valid(clock)
      modifies this`trace, clock
      ensures Valid(clock)
      ensures trace == old(trace) + [Barrier]
      ensures clock.now == old(clock.now) + wait
    {
      ReplaySnoc(initial, trace, since, Barrier);
      trace := trace + [Barrier];
      clock.Advance(wait);
    }

    method SetBytesProcessed(n: u64)
      modifies this`bytesProcessed
      ensures bytesProcessed == n
    {
      bytesProcessed := n;
    }

    /** begin(): an iterator over the whole budget; the timer is not touched. */
    method Begin() returns (it: Iterator)
      ensures fresh(it)
      ensures it.parent == this && it.remaining == iterations && it.iterBarrier == iterBarrier
    {
      it := new Iterator.Of(this);
    }

    /** end(): starts the timer, and returns the sentinel iterator. */
    method End(clock: Clock) returns (it: Iterator)
      requires Valid(clock)
      modifies this`trace, timer
      ensures fresh(it) && it.parent == null && it.remaining == 0
      ensures Valid(clock)
      ensures trace == old(trace) + [Resume(clock.now)]
      ensures timer.Model() == Resumed(old(timer.Model()), clock.now)
    {
      StartRunning(clock);
      it := new Iterator.Sentinel();
    }
  }

  class Iterator {
    var parent: State?
    var remaining: u64
    var iterBarrier: bool

    /** The default-constructed iterator end() returns; its barrier flag is
        left uninitialised by the harness and is never read. */
    constructor Sentinel()
      ensures parent == null && remaining == 0 && !iterBarrier
    {
      parent := null;
      remaining := 0;
      iterBarrier := false;
    }

    constructor Of(state: State)
      ensures parent == state && remaining == state.iterations && iterBarrier == state.iterBarrier
    {
      parent := state;
      remaining := state.iterations;
      iterBarrier := state.iterBarrier;
    }

    method ResumeTiming(clock: Clock)
      requires parent != null && parent.Valid(clock)
      modifies parent`trace, parent.timer
      ensures parent.Valid(clock)
      ensures parent.trace == old(parent.trace) + [Resume(clock.now)]
    {
      parent.StartRunning(clock);
    }

    method PauseTiming(clock: Clock)
      requires parent != null && parent.Valid(clock)
      modifies parent`trace, parent.timer
      ensures parent.Valid(clock)
      ensures parent.trace == old(parent.trace) + [Pause(clock.now)]
    {
      parent.FinishRunning(clock);
    }

    /** `it != end`. The test `(remaining_ != 0, false)` is a comma
        expression: it discards the comparison, so the answer is always
        false and the timer is always paused. `rhs` is not looked at;
        `barrierWait` is how long this rank waits at the barrier. */
    method NotEqual(rhs: Iterator, clock: Clock, barrierWait: nat) returns (more: bool)
      requires parent != null && parent.Valid(clock)
      modifies parent`trace, parent.timer, clock
      ensures !more
      ensures parent.Valid(clock)
      ensures clock.now == old(clock.now) + (if parent.mpi && iterBarrier then barrierWait else 0)
      ensures parent.trace == old(parent.trace) + NotEqualEvents(parent.mpi && iterBarrier, clock.now)
    {
      if parent.mpi && iterBarrier {
        parent.AwaitBarrier(clock, barrierWait);
        ResumeTiming(clock);
      }
      PauseTiming(clock);
      more := false;
    }

    /** `++it` */
    method Increment(clock: Clock) returns (self: Iterator)
      requires parent != null && parent.Valid(clock)
      modifies this`remaining, parent`trace, parent.timer
      ensures self == this && remaining == Decrement(old(remaining))
      ensures parent.Valid(clock)
      ensures parent.trace == old(parent.trace) + IncrementEvents(parent.mpi && iterBarrier, clock.now)
    {
      if parent.mpi && iterBarrier {
        PauseTiming(clock);
      }
      remaining := Decrement(remaining);
      self := this;
    }
  }

  /** `for (auto _ : state) { ... }`: begin(), end(), then the loop test.
      `entered` is whether the loop body runs at all: the first test
      already answers false, for every iteration count. There is no
      `while` here: since the test never holds, a loop body would be dead
      code, and every checked statement in it would be proved only from
      contradictory assumptions. The single test is the whole loop. */
  method RangeFor(state: State, clock: Clock, barrierWait: nat) returns (entered: bool)
    requires state.Valid(clock)
    modifies state`trace, state.timer, clock
    ensures !entered
    ensures state.Valid(clock)
    ensures clock.now == old(clock.now) + (if state.mpi && state.iterBarrier then barrierWait else 0)
    ensures state.trace == old(state.trace) + RangeForEvents(state.mpi && state.iterBarrier, old(clock.now), clock.now)
  {
    var first := state.Begin();
    var last := state.End(clock);
    entered := first.NotEqual(last, clock, barrierWait);
  }
}
