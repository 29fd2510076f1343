/** The Benchmark descriptor of include/bench/bench.hpp: a name, the body to
    run, the timer it owns and the between-iterations barrier flag, with the
    configuration calls that replace the timer or clear the flag.

    The body is the user's function (FunctionBenchmark::fn_). It is code the
    harness cannot see, so here it is a script of what a body may do with
    its State: let time pass, loop over the State, set the bytes processed,
    or start and stop the timer itself. */
module Benchmarks {
  import opened Timers
  import opened Clocks
  import opened Iteration
  import opened World

  /** One thing a benchmark body does with its State. */
  datatype Action =
    | Work(duration: nat)       // user code that takes time and makes no harness call
    | Loop(barrierWait: nat)    // `for (auto _ : state) { ... }`; the wait at its barrier
    | SetBytes(n: u64)          // state.set_bytes_processed(n)
    | Start                     // state.start_running()
    | Finish                    // state.finish_running()

  type Body = seq<Action>

  /** The clock reading after the action, from the reading `now` before it;
      `barrier` is whether MPI and the State's barrier flag are both on. */
  function ActionEnd(a: Action, barrier: bool, now: nat): nat {
    match a
    case Work(d) => now + d
    case Loop(w) => if barrier then now + w else now
    case _ => now
  }

  /** What the action logs in the State's trace. */
  function ActionEvents(a: Action, barrier: bool, now: nat): seq<Event> {
    match a
    case Loop(_) => RangeForEvents(barrier, now, ActionEnd(a, barrier, now))
    case Start => [Resume(now)]
    case Finish => [Pause(now)]
    case _ => []
  }

  /** The clock reading once the whole body has run. */
  function BodyEnd(body: Body, barrier: bool, now: nat): (t: nat)
    ensures t >= now
    decreases |body|
  {
    if body == [] then now
    else ActionEnd(body[|body| - 1], barrier, BodyEnd(body[..|body| - 1], barrier, now))
  }

  /** What the whole body logs, in clock order, ending by the time it ends. */
  function BodyEvents(body: Body, barrier: bool, now: nat): (evs: seq<Event>)
    ensures Chronological(evs, now)
    ensures Last(evs, now) <= BodyEnd(body, barrier, now)
    decreases |body|
  {
    if body == [] then []
    else
      var before := BodyEvents(body[..|body| - 1], barrier, now);
      var mid := BodyEnd(body[..|body| - 1], barrier, now);
      var a := body[|body| - 1];
      ActionFacts(a, barrier, mid);
      ChronologicalAppend(before, ActionEvents(a, barrier, mid), now, mid);
      before + ActionEvents(a, barrier, mid)
  }

  lemma ActionFacts(a: Action, barrier: bool, now: nat)
    ensures Chronological(ActionEvents(a, barrier, now), now)
    ensures Last(ActionEvents(a, barrier, now), now) <= ActionEnd(a, barrier, now)
  {
    var t := ActionEnd(a, barrier, now);
    var evs := ActionEvents(a, barrier, now);
    if a.Loop? {
      var pause := [Pause(t)];
      assert pause[1..] == [];
      if barrier {
        var resume := [Resume(t)] + pause;
        var test := [Barrier] + resume;
        assert resume[1..] == pause && test[1..] == resume && evs == [Resume(now)] + test;
        assert Chronological(pause, t) && Last(pause, t) == t;
        assert Chronological(resume, t) && Last(resume, t) == t;
        assert Chronological(test, t) && Last(test, t) == t;
        ChronologicalFromEarlier(test, now, t);
        assert evs[1..] == test;
        assert Last(evs, now) == Last(test, now);
      } else {
        assert evs == [Resume(now)] + pause && evs[1..] == pause;
        assert Last(evs, now) == Last(pause, now) == t;
      }
    } else if a.Start? || a.Finish? {
      assert evs[1..] == [];
    }
  }

  /** What bytes_processed() reads after the body: the value of the last
      set_bytes_processed call, or `initial` when there was none. */
  function LastBytes(body: Body, initial: u64): u64
    decreases |body|
  {
    if body == [] then initial
    else if body[|body| - 1].SetBytes? then body[|body| - 1].n
    else LastBytes(body[..|body| - 1], initial)
  }

  /** set_bytes_processed is last-write-wins: a body that sets the figure at
      position i and never again reads back that figure, and a body that never
      sets it reads back the initial value. */
  lemma {:induction false} LastWriteWins(body: Body, initial: u64, i: nat)
    requires i < |body| && body[i].SetBytes?
    requires forall j :: i < j < |body| ==> !body[j].SetBytes?
    ensures LastBytes(body, initial) == body[i].n
    decreases |body|
  {
    if i < |body| - 1 {
      var prefix := body[..|body| - 1];
      assert forall j :: i < j < |prefix| ==> prefix[j] == body[j];
      LastWriteWins(prefix, initial, i);
    }
  }

  lemma {:induction false} NoWriteKeepsInitial(body: Body, initial: u64)
    requires forall j :: 0 <= j < |body| ==> !body[j].SetBytes?
    ensures LastBytes(body, initial) == initial
    decreases |body|
  {
    if body != [] {
      var prefix := body[..|body| - 1];
      assert forall j :: 0 <= j < |prefix| ==> prefix[j] == body[j];
      NoWriteKeepsInitial(prefix, initial);
    }
  }

  /** Running one more action after a body extends its log, its end and its
      bytes figure by that action's. */
  lemma BodySnoc(body: Body, a: Action, barrier: bool, now: nat, initial: u64)
    ensures var mid := BodyEnd(body, barrier, now);
      && BodyEvents(body + [a], barrier, now) == BodyEvents(body, barrier, now) + ActionEvents(a, barrier, mid)
      && BodyEnd(body + [a], barrier, now) == ActionEnd(a, barrier, mid)
      && LastBytes(body + [a], initial) == if a.SetBytes? then a.n else LastBytes(body, initial)
  {
    assert (body + [a])[..|body|] == body;
  }

  /** The timer once the body has run on it from the reading `now`, action
      by action: each action's events replayed on what the actions before it
      left. */
  function TimerAfter(s: TimerState, body: Body, barrier: bool, now: nat): (r: TimerState)
    requires Behind(s, now)
    ensures r.kind == s.kind && r.elapsed >= s.elapsed
    ensures Behind(r, BodyEnd(body, barrier, now))
    ensures Wf(s) ==> Wf(r)
    ensures Wf(s) && s.kind == NoOp ==> r == s
    decreases |body|
  {
    if body == [] then s
    else
      var prefix := body[..|body| - 1];
      var mid := BodyEnd(prefix, barrier, now);
      var a := body[|body| - 1];
      ActionFacts(a, barrier, mid);
      Replay(TimerAfter(s, prefix, barrier, now), ActionEvents(a, barrier, mid), mid)
  }

  /** Running the body action by action leaves the timer as replaying the
      body's whole log at once does. */
  lemma {:induction false} TimerAfterReplays(s: TimerState, body: Body, barrier: bool, now: nat)
    requires Behind(s, now)
    ensures TimerAfter(s, body, barrier, now) == Replay(s, BodyEvents(body, barrier, now), now)
    decreases |body|
  {
    if body != [] {
      var prefix := body[..|body| - 1];
      var mid := BodyEnd(prefix, barrier, now);
      var a := body[|body| - 1];
      TimerAfterReplays(s, prefix, barrier, now);
      ActionFacts(a, barrier, mid);
      ReplayAppend(s, BodyEvents(prefix, barrier, now), ActionEvents(a, barrier, mid), now, mid);
    }
  }

  /** What get_elapsed() returns when the body ran on a timer in state `s`
      from the clock reading `now`, and the timer was read when it finished. */
  ghost function Measured(s: TimerState, body: Body, barrier: bool, now: nat): nat
    requires Behind(s, now)
  {
    Read(TimerAfter(s, body, barrier, now), BodyEnd(body, barrier, now)).1
  }

  /** A NoOpTimer measures 0 whatever the body does. */
  lemma NoOpMeasuresZero(s: TimerState, body: Body, barrier: bool, now: nat)
    requires Wf(s) && s.kind == NoOp
    ensures Measured(s, body, barrier, now) == 0
  {
  }

  /** Without finalize, a MaxRankTimer measures exactly what a WallTimer in
      the same state would: this rank's own total, not the maximum. */
  lemma {:induction false} MaxRankMeasuresOwnTotal(s: TimerState, body: Body, barrier: bool, now: nat)
    requires s.kind == MaxRank && Behind(s, now)
    ensures Measured(s, body, barrier, now) == Measured(s.(kind := Wall), body, barrier, now)
  {
    var evs := BodyEvents(body, barrier, now);
    TimerAfterReplays(s, body, barrier, now);
    TimerAfterReplays(s.(kind := Wall), body, barrier, now);
    ReplayAsWall(s, evs, now);
    var r := Replay(s, evs, now);
    var t := BodyEnd(body, barrier, now);
    LastNotEarlier(evs, now);
    assert Paused(r.(kind := Wall), t) == Paused(r, t).(kind := Wall);
  }

  /** A body that only loops over its State, run on a paused wall timer,
      measures exactly the wait at the loop's leading barrier (nothing when
      MPI or the barrier is off): the loop never runs its body, and end()
      started the timer before the barrier. */
  lemma {:induction false} EmptyLoopMeasuresBarrier(s: TimerState, barrierWait: nat, barrier: bool, now: nat)
    requires Wf(s) && s.paused && s.kind != NoOp
    ensures Measured(s, [Loop(barrierWait)], barrier, now)
         == s.elapsed + (if barrier then barrierWait else 0)
  {
    var body := [Loop(barrierWait)];
    var t := BodyEnd(body, barrier, now);
    assert body[..0] == [];
    assert BodyEvents(body, barrier, now) == [] + RangeForEvents(barrier, now, t);
    assert [] + RangeForEvents(barrier, now, t) == RangeForEvents(barrier, now, t);
    TimerAfterReplays(s, body, barrier, now);
    RangeForCharges(s, barrier, now, t);
  }

  /** The configuration calls of the descriptor. */
  datatype Setting = RootRankTiming | MaxRankTiming | NoBarrier

  /** The part of a descriptor the configuration calls set. */
  datatype Config = Config(kind: Kind, iterBarrier: bool)

  /** A new descriptor: a NoOpTimer and the barrier on. */
  const Default := Config(NoOp, true)

  /** timing_root_rank() installs a WallTimer on rank 0 and a NoOpTimer on
      every other rank; timing_max_rank() installs a MaxRankTimer; neither
      touches the flag. no_iter_barrier() clears the flag and keeps the timer. */
  function Configure(c: Config, op: Setting, rank: nat): (r: Config)
    ensures op.NoBarrier? ==> r.kind == c.kind && !r.iterBarrier
    ensures !op.NoBarrier? ==> r.iterBarrier == c.iterBarrier
    ensures op.RootRankTiming? ==> (r.kind == Wall <==> rank == 0) && r.kind in {Wall, NoOp}
    ensures op.MaxRankTiming? ==> r.kind == MaxRank
  {
    match op
    case RootRankTiming => c.(kind := if rank == 0 then Wall else NoOp)
    case MaxRankTiming => c.(kind := MaxRank)
    case NoBarrier => c.(iterBarrier := false)
  }

  /** A chain of configuration calls, first to last. */
  function ConfigureAll(c: Config, ops: seq<Setting>, rank: nat): Config
    decreases |ops|
  {
    if ops == [] then c else ConfigureAll(Configure(c, ops[0], rank), ops[1..], rank)
  }

  /** The barrier is off after a chain of calls exactly when it was off
      before or the chain holds no_iter_barrier(). */
  lemma {:induction false} BarrierOffIffRequested(c: Config, ops: seq<Setting>, rank: nat)
    ensures ConfigureAll(c, ops, rank).iterBarrier <==> c.iterBarrier && NoBarrier !in ops
    decreases |ops|
  {
    if ops != [] {
      BarrierOffIffRequested(Configure(c, ops[0], rank), ops[1..], rank);
      assert NoBarrier in ops <==> ops[0] == NoBarrier || NoBarrier in ops[1..];
    }
  }

  /** Off rank 0, a descriptor that never asked for max-rank timing keeps a
      NoOpTimer, so its rank measures 0. */
  lemma {:induction false} NonRootRankNeverTimes(ops: seq<Setting>, rank: nat)
    requires rank != 0 && MaxRankTiming !in ops
    ensures ConfigureAll(Default, ops, rank).kind == NoOp
  {
    NoOpStaysNoOp(Default, ops, rank);
  }

  lemma {:induction false} NoOpStaysNoOp(c: Config, ops: seq<Setting>, rank: nat)
    requires rank != 0 && MaxRankTiming !in ops && c.kind == NoOp
    ensures ConfigureAll(c, ops, rank).kind == NoOp
    decreases |ops|
  {
    if ops != [] {
      assert ops[0] != MaxRankTiming && MaxRankTiming !in ops[1..] by {
        assert ops == [ops[0]] + ops[1..];
      }
      NoOpStaysNoOp(Configure(c, ops[0], rank), ops[1..], rank);
    }
  }

  class Benchmark {
    const name: string
    const body: Body
    var timer: Timer
    var iterBarrier: bool

    function Configuration(): Config
      reads this
    {
      Config(timer.kind, iterBarrier)
    }

    ghost predicate Valid()
      reads this, timer
    {
      timer.Valid()
    }

    constructor (name: string, body: Body)
      ensures this.name == name && this.body == body
      ensures Configuration() == Default
      ensures fresh(timer) && timer.Model() == Fresh(NoOp) && Valid()
    {
      this.name := name;
      this.body := body;
      timer := new Timer(NoOp);
      iterBarrier := true;
    }

    /** timing_root_rank(); the previous timer is released. */
    method TimingRootRank(build: Build) returns (self: Benchmark)
      modifies this`timer
      ensures self == this
      ensures Configuration() == Configure(old(Configuration()), RootRankTiming, Rank(build))
      ensures fresh(timer) && timer.Model() == Fresh(timer.kind) && Valid()
    {
      if Rank(build) == 0 {
        timer := new Timer(Wall);
      } else {
        timer := new Timer(NoOp);
      }
      self := this;
    }

    /** timing_max_rank() */
    method TimingMaxRank() returns (self: Benchmark)
      modifies this`timer
      ensures self == this
      ensures Configuration() == Configure(old(Configuration()), MaxRankTiming, 0)
      ensures fresh(timer) && timer.Model() == Fresh(MaxRank) && Valid()
    {
      timer := new Timer(MaxRank);
      self := this;
    }

    /** no_iter_barrier() */
    method NoIterBarrier() returns (self: Benchmark)
      modifies this`iterBarrier
      ensures self == this
      ensures Configuration() == Configure(old(Configuration()), NoBarrier, 0)
    {
      iterBarrier := false;
      self := this;
    }

    /** run(state): the body, action by action. */
    method Run(state: State, clock: Clock)
      requires state.Valid(clock)
      modifies state`trace, state`bytesProcessed, state.timer, clock
      ensures state.Valid(clock)
      ensures state.trace == old(state.trace) + BodyEvents(body, state.mpi && state.iterBarrier, old(clock.now))
      ensures clock.now == BodyEnd(body, state.mpi && state.iterBarrier, old(clock.now))
      ensures state.bytesProcessed == LastBytes(body, old(state.bytesProcessed))
    {
      ghost var now0, trace0, bytes0 := clock.now, state.trace, state.bytesProcessed;
      assert body[..0] == [];
      var i := 0;
      while i < |body|
        invariant 0 <= i <= |body|
        invariant Ran(state, clock, body[..i], now0, trace0, bytes0)
      {
        PerformNext(state, clock, body[..i], body[i], now0, trace0, bytes0);
        PrefixSnoc(body, i);
        i := i + 1;
      }
      assert body[..|body|] == body;
    }
  }

  /** The State after the actions `done` of a body ran from the clock reading
      `now0`, when its log was `trace0` and its bytes figure `bytes0`. */
  ghost predicate Ran(state: State, clock: Clock, done: Body, now0: nat, trace0: seq<Event>, bytes0: u64)
    reads state, state.timer, clock
  {
    var barrier := state.mpi && state.iterBarrier;
    && state.Valid(clock)
    && state.trace == trace0 + BodyEvents(done, barrier, now0)
    && clock.now == BodyEnd(done, barrier, now0)
    && state.bytesProcessed == LastBytes(done, bytes0)
  }

  /** The next action of a body, run after the ones before it. */
  method PerformNext(state: State, clock: Clock, done: Body, a: Action,
                     ghost now0: nat, ghost trace0: seq<Event>, ghost bytes0: u64)
    requires Ran(state, clock, done, now0, trace0, bytes0)
    modifies state`trace, state`bytesProcessed, state.timer, clock
    ensures Ran(state, clock, done + [a], now0, trace0, bytes0)
  {
    var barrier := state.mpi && state.iterBarrier;
    BodySnoc(done, a, barrier, now0, bytes0);
    var mid := clock.now;
    ghost var before := state.trace;
    Perform(state, clock, a);
    calc {
      state.trace;
      before + ActionEvents(a, barrier, mid);
      (trace0 + BodyEvents(done, barrier, now0)) + ActionEvents(a, barrier, mid);
      { AppendAssoc(trace0, BodyEvents(done, barrier, now0), ActionEvents(a, barrier, mid)); }
      trace0 + BodyEvents(done + [a], barrier, now0);
    }
  }

  lemma PrefixSnoc<T>(s: seq<T>, i: nat)
    requires i < |s|
    ensures s[..i] + [s[i]] == s[..i + 1]
  {
  }

  lemma AppendAssoc<T>(a: seq<T>, b: seq<T>, c: seq<T>)
    ensures (a + b) + c == a + (b + c)
  {
  }

  /** One action of a body, on its State. */
  method Perform(state: State, clock: Clock, a: Action)
    requires state.Valid(clock)
    modifies state`trace, state`bytesProcessed, state.timer, clock
    ensures state.Valid(clock)
    ensures state.trace == old(state.trace) + ActionEvents(a, state.mpi && state.iterBarrier, old(clock.now))
    ensures clock.now == ActionEnd(a, state.mpi && state.iterBarrier, old(clock.now))
    ensures state.bytesProcessed == if a.SetBytes? then a.n else old(state.bytesProcessed)
  {
    match a {
      case Work(d) =>
        clock.Advance(d);
      case Loop(w) =>
        var entered := RangeFor(state, clock, w);
      case SetBytes(n) =>
        state.SetBytesProcessed(n);
      case Start =>
        state.StartRunning(clock);
      case Finish =>
        state.FinishRunning(clock);
    }
  }
}
