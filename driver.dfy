/** The registry and the driver of src/bench.cpp: register_bench appends a
    new descriptor to the process-wide list, and run_benchmarks visits the
    list in order, runs each body on a fresh State of 10000 iterations that
    shares the descriptor's timer and barrier flag, and on rank 0 reports the
    time the timer read and the bytes the body recorded. */
module Driver {
  import opened Timers
  import opened Clocks
  import opened Iteration
  import opened World
  import opened Benchmarks

  datatype Option<T> = None | Some(value: T)

  /** The iteration count run_benchmarks gives every State. */
  const Iterations: u64 := 10000

  /** What rank 0 prints for one benchmark, before the floating-point
      formatting: the name, the timer's total in nanoseconds, the iteration
      count and the bytes processed. */
  datatype Report = Report(name: string, elapsedNs: nat, iterations: u64, bytesProcessed: u64)

  /** A printed figure: a division by a zero time prints as infinity. */
  datatype Figure = Finite(value: real) | Infinite

  /** The "<ns>ns" figure: the total spread over the iterations. */
  function NsPerIteration(r: Report): (ns: real)
    requires r.iterations > 0
    ensures ns * r.iterations as real == r.elapsedNs as real
    ensures ns >= 0.0
  {
    r.elapsedNs as real / r.iterations as real
  }

  /** The " <bytes/s>B/s" figure, printed exactly when the body recorded a
      nonzero number of bytes: the bytes over the seconds per iteration. */
  function Throughput(r: Report): (t: Option<Figure>)
    requires r.iterations > 0
    ensures t.Some? <==> r.bytesProcessed != 0
    ensures t == Some(Infinite) <==> r.bytesProcessed != 0 && r.elapsedNs == 0
    ensures t.Some? && t.value.Finite? ==>
      t.value.value * (NsPerIteration(r) / 1000000000.0) == r.bytesProcessed as real
  {
    if r.bytesProcessed == 0 then None
    else if r.elapsedNs == 0 then Some(Infinite)
    else
      var seconds := NsPerIteration(r) / 1000000000.0;
      Some(Finite(r.bytesProcessed as real / seconds))
  }

  /** The process-wide list of registered benchmarks. */
  class Registry {
    var benchmarks: seq<Benchmark>

    /** Every descriptor owns its own timer. */
    ghost predicate Valid()
      reads this, set b | b in benchmarks, set b | b in benchmarks :: b.timer
    {
      && (forall i, j :: 0 <= i < j < |benchmarks| ==> benchmarks[i].timer != benchmarks[j].timer)
      && (forall b :: b in benchmarks ==> b.Valid())
    }

    constructor ()
      ensures benchmarks == [] && Valid()
    {
      benchmarks := [];
    }

    /** register_bench(name, fn): a new descriptor, with a NoOpTimer and the
        barrier on, appended to the list and returned. Names need not be
        distinct. */
    method RegisterBench(name: string, body: Body) returns (b: Benchmark)
      requires Valid()
      modifies this
      ensures Valid()
      ensures benchmarks == old(benchmarks) + [b]
      ensures fresh(b) && fresh(b.timer)
      ensures b.name == name && b.body == body
      ensures b.Configuration() == Default && b.timer.Model() == Fresh(NoOp)
    {
      b := new Benchmark(name, body);
      benchmarks := benchmarks + [b];
    }
  }

  /** A registered benchmark as run_benchmarks finds it: its name, its body,
      whether its loop tests run the barrier (MPI build and flag on), and its
      timer. */
  datatype Entry = Entry(name: string, body: Body, barrier: bool, timer: TimerState)

  /** One benchmark as a value, in a build with or without MPI. */
  ghost function EntryOf(b: Benchmark, mpi: bool): Entry
    reads b, b.timer
  {
    Entry(b.name, b.body, mpi && b.iterBarrier, b.timer.Model())
  }

  /** The registry's benchmarks as values. */
  ghost function Entries(benchmarks: seq<Benchmark>, mpi: bool): (entries: seq<Entry>)
    reads set b | b in benchmarks, set b | b in benchmarks :: b.timer
    ensures |entries| == |benchmarks|
    ensures forall j {:trigger entries[j]} :: 0 <= j < |benchmarks| ==> entries[j] == EntryOf(benchmarks[j], mpi)
  {
    if benchmarks == [] then []
    else [EntryOf(benchmarks[0], mpi)] + Entries(benchmarks[1..], mpi)
  }

  /** Every timer is running since no later than `now`, or paused. */
  predicate AllBehind(entries: seq<Entry>, now: nat) {
    forall j :: 0 <= j < |entries| ==> Behind(entries[j].timer, now)
  }

  /** The clock reading once the bodies of the first `n` entries have run
      in order from the reading `now`. */
  function Finish(entries: seq<Entry>, n: nat, now: nat): (t: nat)
    requires n <= |entries|
    ensures t >= now
  {
    if n == 0 then now
    else BodyEnd(entries[n - 1].body, entries[n - 1].barrier, Finish(entries, n - 1, now))
  }

  /** What rank 0 reports for `e` when its body starts at the reading `start`:
      the figure its timer reads once the body has run, never finalized. */
  ghost function Expected(e: Entry, start: nat): (r: Report)
    requires Behind(e.timer, start)
    ensures r.name == e.name && r.iterations == Iterations
    ensures r.bytesProcessed == LastBytes(e.body, 0)
  {
    Report(e.name, Measured(e.timer, e.body, e.barrier, start), Iterations, LastBytes(e.body, 0))
  }

  /** The timer of `e` once run_benchmarks has run its body from the reading
      `start`: the body's timer calls replayed on it, then, on a reporting
      rank, the pause get_elapsed makes. A later run starts from here. */
  function AfterRun(e: Entry, start: nat, reports: bool): (s: TimerState)
    requires Behind(e.timer, start)
    ensures s.kind == e.timer.kind && s.elapsed >= e.timer.elapsed
    ensures Behind(s, BodyEnd(e.body, e.barrier, start))
  {
    var ran := TimerAfter(e.timer, e.body, e.barrier, start);
    if reports then Read(ran, BodyEnd(e.body, e.barrier, start)).0 else ran
  }

  /** On the reporting rank the timer is left paused, holding the figure
      that was printed for it (a NoOpTimer prints 0 and keeps nothing). */
  lemma AfterRunReported(e: Entry, start: nat)
    requires Behind(e.timer, start) && Wf(e.timer)
    ensures var s := AfterRun(e, start, true);
      && Wf(s) && s.paused
      && (e.timer.kind != NoOp ==> s.elapsed == Expected(e, start).elapsedNs)
  {
  }

  /** The timer run_benchmarks leaves is the body's whole log of timer calls
      replayed on the timer it started with, then, on a reporting rank, the
      pause get_elapsed makes when the body has finished. */
  lemma AfterRunReplays(e: Entry, start: nat, reports: bool)
    requires Behind(e.timer, start)
    ensures var ran := Replay(e.timer, BodyEvents(e.body, e.barrier, start), start);
      AfterRun(e, start, reports) == if reports then Read(ran, BodyEnd(e.body, e.barrier, start)).0 else ran
  {
    TimerAfterReplays(e.timer, e.body, e.barrier, start);
  }

  /** The reports rank 0 prints for the first `n` entries, run in order from
      `now`. */
  ghost function Reported(entries: seq<Entry>, n: nat, now: nat): (rs: seq<Report>)
    requires n <= |entries| && AllBehind(entries, now)
    ensures |rs| == n
  {
    if n == 0 then []
    else
      var start := Finish(entries, n - 1, now);
      assert Behind(entries[n - 1].timer, start);
      Reported(entries, n - 1, now) + [Expected(entries[n - 1], start)]
  }

  /** Running one more entry appends its report, its body started where
      the bodies before it ended, to those before. */
  lemma ReportedLast(entries: seq<Entry>, n: nat, now: nat)
    requires 0 < n <= |entries| && AllBehind(entries, now)
    ensures Behind(entries[n - 1].timer, Finish(entries, n - 1, now))
    ensures Reported(entries, n, now)
         == Reported(entries, n - 1, now) + [Expected(entries[n - 1], Finish(entries, n - 1, now))]
  {
    assert Behind(entries[n - 1].timer, now);
  }

  /** run_benchmarks reports the benchmarks in registration order, each
      once: the j-th report is the j-th entry's, its body started where the
      bodies of the entries before it ended. */
  lemma {:induction false} ReportsInOrder(entries: seq<Entry>, n: nat, now: nat, j: nat)
    requires n <= |entries| && AllBehind(entries, now) && j < n
    ensures Behind(entries[j].timer, Finish(entries, j, now))
    ensures Reported(entries, n, now)[j] == Expected(entries[j], Finish(entries, j, now))
    ensures Reported(entries, n, now)[j].name == entries[j].name
    decreases n
  {
    ReportedLast(entries, n, now);
    if j < n - 1 {
      ReportsInOrder(entries, n - 1, now, j);
      var before := Reported(entries, n - 1, now);
      var last := Expected(entries[n - 1], Finish(entries, n - 1, now));
      assert (before + [last])[j] == before[j];
    }
  }

  /** One pass of run_benchmarks' loop: a fresh State over the descriptor's
      timer, the body, and on a reporting rank the timer's reading. */
  method RunOne(b: Benchmark, build: Build, clock: Clock) returns (report: Option<Report>)
    requires b.Valid() && Behind(b.timer.Model(), clock.now)
    modifies clock, b.timer
    ensures clock.now == BodyEnd(b.body, build.mpi && b.iterBarrier, old(clock.now))
    ensures report.Some? <==> Reports(build)
    ensures report.Some? ==>
      report.value == Expected(Entry(b.name, b.body, build.mpi && b.iterBarrier, old(b.timer.Model())), old(clock.now))
    ensures b.Valid()
    ensures b.timer.Model()
         == AfterRun(Entry(b.name, b.body, build.mpi && b.iterBarrier, old(b.timer.Model())), old(clock.now), Reports(build))
  {
    var state := new State(Iterations, b.timer, b.iterBarrier, build.mpi, clock);
    b.Run(state, clock);
    assert state.trace == BodyEvents(b.body, build.mpi && b.iterBarrier, state.since);
    TimerAfterReplays(state.initial, b.body, build.mpi && b.iterBarrier, state.since);
    if Rank(build) == 0 {
      var total := b.timer.GetElapsed(clock.now);
      report := Some(Report(b.name, total, state.iterations, state.bytesProcessed));
    } else {
      report := None;
    }
  }

  /** The benchmarks from position `i` on have not run yet: each still is
      what `entries` recorded. */
  ghost predicate Pending(benchmarks: seq<Benchmark>, entries: seq<Entry>, i: nat, mpi: bool)
    requires |entries| == |benchmarks| && i <= |benchmarks|
    reads set b | b in benchmarks[i..], set b | b in benchmarks[i..] :: b.timer
    decreases |benchmarks| - i
  {
    i >= |benchmarks| ||
      (var b := benchmarks[i];
       && b.Valid()
       && entries[i] == EntryOf(b, mpi)
       && Pending(benchmarks, entries, i + 1, mpi))
  }

  /** Each benchmark owns its own timer: `owner` maps the timer back to the
      benchmark's position. */
  ghost predicate Owns(benchmarks: seq<Benchmark>, owner: map<Timer, nat>)
    reads set b | b in benchmarks
  {
    forall j :: 0 <= j < |benchmarks| ==> benchmarks[j].timer in owner && owner[benchmarks[j].timer] == j
  }

  /** The owner map of a list of benchmarks with pairwise distinct timers. */
  ghost function Owners(benchmarks: seq<Benchmark>): (owner: map<Timer, nat>)
    requires forall i, j :: 0 <= i < j < |benchmarks| ==> benchmarks[i].timer != benchmarks[j].timer
    reads set b | b in benchmarks
    ensures Owns(benchmarks, owner)
    ensures owner.Keys == set b | b in benchmarks :: b.timer
  {
    map j | 0 <= j < |benchmarks| :: benchmarks[j].timer := j
  }

  /** Benchmarks that map back to their own positions have distinct timers. */
  lemma OwnersDistinct(benchmarks: seq<Benchmark>, owner: map<Timer, nat>)
    requires Owns(benchmarks, owner)
    ensures forall i, j :: 0 <= i < j < |benchmarks| ==> benchmarks[i].timer != benchmarks[j].timer
  {
  }

  lemma {:induction false} PendingAtStart(benchmarks: seq<Benchmark>, mpi: bool, entries: seq<Entry>, i: nat)
    requires entries == Entries(benchmarks, mpi) && i <= |benchmarks|
    requires forall j :: i <= j < |benchmarks| ==> benchmarks[j].Valid()
    ensures Pending(benchmarks, entries, i, mpi)
    decreases |benchmarks| - i
  {
    if i < |benchmarks| {
      PendingAtStart(benchmarks, mpi, entries, i + 1);
    }
  }

  /** The timers run_benchmarks leaves for the first `n` entries, run in
      order from the reading `now`. */
  function Finals(entries: seq<Entry>, n: nat, now: nat, reports: bool): (finals: seq<TimerState>)
    requires n <= |entries| && AllBehind(entries, now)
    ensures |finals| == n
  {
    if n == 0 then []
    else
      var start := Finish(entries, n - 1, now);
      assert Behind(entries[n - 1].timer, start);
      Finals(entries, n - 1, now, reports) + [AfterRun(entries[n - 1], start, reports)]
  }

  /** The j-th timer left is the j-th entry's, its body run from where the
      bodies before it ended. */
  lemma {:induction false} FinalsAt(entries: seq<Entry>, n: nat, now: nat, reports: bool, j: nat)
    requires n <= |entries| && AllBehind(entries, now) && j < n
    ensures Behind(entries[j].timer, Finish(entries, j, now))
    ensures Finals(entries, n, now, reports)[j] == AfterRun(entries[j], Finish(entries, j, now), reports)
    decreases n
  {
    assert Behind(entries[j].timer, now);
    var start := Finish(entries, n - 1, now);
    assert Behind(entries[n - 1].timer, start);
    var last := AfterRun(entries[n - 1], start, reports);
    var before := Finals(entries, n - 1, now, reports);
    assert Finals(entries, n, now, reports) == before + [last];
    if j < n - 1 {
      FinalsAt(entries, n - 1, now, reports, j);
      assert (before + [last])[j] == before[j];
    }
  }

  /** The clock never runs backwards from one benchmark to the next. */
  lemma {:induction false} FinishMonotone(entries: seq<Entry>, j: nat, n: nat, now: nat)
    requires j <= n <= |entries|
    ensures Finish(entries, j, now) <= Finish(entries, n, now)
    decreases n
  {
    if j < n {
      FinishMonotone(entries, j, n - 1, now);
    }
  }

  /** The timer the j-th entry leaves is paused or started no later than
      the clock reads once the whole list has run. */
  lemma FinalBehind(entries: seq<Entry>, now: nat, reports: bool, j: nat)
    requires AllBehind(entries, now) && j < |entries|
    ensures Behind(Finals(entries, |entries|, now, reports)[j], Finish(entries, |entries|, now))
  {
    FinalsAt(entries, |entries|, now, reports, j);
    var start := Finish(entries, j, now);
    var s := AfterRun(entries[j], start, reports);
    assert Behind(s, BodyEnd(entries[j].body, entries[j].barrier, start));
    assert Finish(entries, j + 1, now) == BodyEnd(entries[j].body, entries[j].barrier, start);
    FinishMonotone(entries, j + 1, |entries|, now);
  }

  /** Once the whole list has run, every timer it leaves is paused or
      started no later than the clock reads: run_benchmarks can run the
      list again. */
  lemma FinalsBehind(entries: seq<Entry>, now: nat, reports: bool)
    requires AllBehind(entries, now)
    ensures var finals := Finals(entries, |entries|, now, reports);
      forall j :: 0 <= j < |finals| ==> Behind(finals[j], Finish(entries, |entries|, now))
  {
    forall j | 0 <= j < |entries|
      ensures Behind(Finals(entries, |entries|, now, reports)[j], Finish(entries, |entries|, now))
    {
      FinalBehind(entries, now, reports, j);
    }
  }

  /** The benchmarks from position `k` up to `i` have run: each timer is
      what `finals` holds for its position. */
  ghost predicate Ran(benchmarks: seq<Benchmark>, finals: seq<TimerState>, k: nat, i: nat)
    requires k <= i <= |benchmarks| && i <= |finals|
    reads set b | b in benchmarks[k..i], set b | b in benchmarks[k..i] :: b.timer
    decreases i - k
  {
    k == i ||
      (assert forall b | b in benchmarks[k + 1..i] :: b in benchmarks[k..i];
       && benchmarks[k].Valid()
       && benchmarks[k].timer.Model() == finals[k]
       && Ran(benchmarks, finals, k + 1, i))
  }

  /** One more benchmark run at the end extends the run of those before it. */
  lemma {:induction false} RanExtend(benchmarks: seq<Benchmark>, finals: seq<TimerState>, k: nat, i: nat)
    requires k <= i < |benchmarks| && i < |finals|
    requires Ran(benchmarks, finals, k, i)
    requires benchmarks[i].Valid() && benchmarks[i].timer.Model() == finals[i]
    ensures Ran(benchmarks, finals, k, i + 1)
    decreases i - k
  {
    if k < i {
      RanExtend(benchmarks, finals, k + 1, i);
    } else {
      assert Ran(benchmarks, finals, i + 1, i + 1);
    }
  }

  /** Once the benchmarks from `k` up to `i` have run, the j-th of them holds
      what `finals` holds for it. */
  lemma {:induction false} RanAt(benchmarks: seq<Benchmark>, finals: seq<TimerState>, k: nat, i: nat, j: nat)
    requires k <= j < i <= |benchmarks| && i <= |finals|
    requires Ran(benchmarks, finals, k, i)
    ensures benchmarks[j].Valid() && benchmarks[j].timer.Model() == finals[j]
    decreases j - k
  {
    if k < j {
      RanAt(benchmarks, finals, k + 1, i, j);
    }
  }

  /** The models of the benchmarks' timers, in order. */
  ghost function TimerModels(benchmarks: seq<Benchmark>): (models: seq<TimerState>)
    reads set b | b in benchmarks, set b | b in benchmarks :: b.timer
    ensures |models| == |benchmarks|
    ensures forall j {:trigger models[j]} :: 0 <= j < |benchmarks| ==> models[j] == benchmarks[j].timer.Model()
  {
    if benchmarks == [] then []
    else [benchmarks[0].timer.Model()] + TimerModels(benchmarks[1..])
  }

  /** The timers the run leaves are ready for another run from the clock
      reading where this one ended. */
  lemma RerunReady(benchmarks: seq<Benchmark>, mpi: bool, entries: seq<Entry>, now: nat, reports: bool)
    requires AllBehind(entries, now) && TimerModels(benchmarks) == Finals(entries, |entries|, now, reports)
    ensures AllBehind(Entries(benchmarks, mpi), Finish(entries, |entries|, now))
  {
    FinalsBehind(entries, now, reports);
    var rerun := Entries(benchmarks, mpi);
    forall j | 0 <= j < |rerun|
      ensures Behind(rerun[j].timer, Finish(entries, |entries|, now))
    {
      assert rerun[j].timer == TimerModels(benchmarks)[j];
    }
  }

  /** No other benchmark shares the i-th benchmark's timer. */
  lemma OwnedApart(benchmarks: seq<Benchmark>, owner: map<Timer, nat>, i: nat)
    requires Owns(benchmarks, owner) && i < |benchmarks|
    ensures forall c | c in benchmarks[i + 1..] :: c.timer != benchmarks[i].timer
    ensures forall c | c in benchmarks[0..i] :: c.timer != benchmarks[i].timer
  {
    forall c | c in benchmarks[i + 1..] ensures c.timer != benchmarks[i].timer {
      var k :| i + 1 <= k < |benchmarks| && benchmarks[k] == c;
      assert owner[c.timer] == k;
    }
    forall c | c in benchmarks[0..i] ensures c.timer != benchmarks[i].timer {
      var k :| 0 <= k < i && benchmarks[k] == c;
      assert owner[c.timer] == k;
    }
  }

  /** run_benchmarks' loop after `i` passes, started at the reading `now`
      on the snapshot `entries`: the clock reads `clock`, rank 0 has printed
      the first `i` of the `expected` reports, and the remaining benchmarks
      have not run yet. */
  ghost predicate Progress(benchmarks: seq<Benchmark>, entries: seq<Entry>, expected: seq<Report>, i: nat,
                           build: Build, now: nat, clock: nat, reports: seq<Report>)
    reads set b | b in benchmarks, set b | b in benchmarks :: b.timer
  {
    && i <= |benchmarks| == |entries| == |expected|
    && AllBehind(entries, now)
    && Pending(benchmarks, entries, i, build.mpi)
    && clock == Finish(entries, i, now)
    && reports == if Reports(build) then expected[..i] else []
  }

  /** The i-th pass of run_benchmarks' loop; `expected` are the reports of
      the whole run and `finals` the timers it leaves. */
  method RunNext(benchmarks: seq<Benchmark>, build: Build, clock: Clock, ghost entries: seq<Entry>, i: nat,
                 ghost now: nat, ghost owner: map<Timer, nat>, ghost expected: seq<Report>,
                 ghost finals: seq<TimerState>, reports: seq<Report>)
    returns (reports': seq<Report>)
    requires i < |benchmarks| && Owns(benchmarks, owner)
    requires Progress(benchmarks, entries, expected, i, build, now, clock.now, reports)
    requires expected == Reported(entries, |entries|, now)
    requires finals == Finals(entries, |entries|, now, Reports(build))
    requires Ran(benchmarks, finals, 0, i)
    modifies clock, benchmarks[i].timer
    ensures Progress(benchmarks, entries, expected, i + 1, build, now, clock.now, reports')
    ensures Ran(benchmarks, finals, 0, i + 1)
  {
    var b := benchmarks[i];
    OwnedApart(benchmarks, owner, i);
    ReportsInOrder(entries, |entries|, now, i);
    FinalsAt(entries, |entries|, now, Reports(build), i);
    assert entries[i] == Entry(b.name, b.body, build.mpi && b.iterBarrier, b.timer.Model());
    var report := RunOne(b, build, clock);
    assert b.timer.Model() == finals[i];
    RanExtend(benchmarks, finals, 0, i);
    reports' := reports;
    if report.Some? {
      PrefixSnoc(expected, i);
      reports' := reports + [report.value];
    }
  }

  /** run_benchmarks' loop over the descriptors, from the snapshot `entries`:
      rank 0 prints each descriptor's report in turn, and afterwards every
      timer is as its own run left it. */
  method RunAll(benchmarks: seq<Benchmark>, build: Build, clock: Clock, ghost entries: seq<Entry>,
                ghost owner: map<Timer, nat>)
    returns (reports: seq<Report>)
    requires |benchmarks| == |entries| && AllBehind(entries, clock.now)
    requires Pending(benchmarks, entries, 0, build.mpi) && Owns(benchmarks, owner)
    modifies clock, owner.Keys
    ensures clock.now == Finish(entries, |entries|, old(clock.now))
    ensures reports == if Reports(build) then Reported(entries, |entries|, old(clock.now)) else []
    ensures Ran(benchmarks, Finals(entries, |entries|, old(clock.now), Reports(build)), 0, |benchmarks|)
    ensures Owns(benchmarks, owner)
  {
    ghost var now0 := clock.now;
    ghost var expected := Reported(entries, |entries|, now0);
    ghost var finals := Finals(entries, |entries|, now0, Reports(build));
    reports := [];
    var i := 0;
    while i < |benchmarks|
      invariant Progress(benchmarks, entries, expected, i, build, now0, clock.now, reports)
      invariant Ran(benchmarks, finals, 0, i)
      invariant Owns(benchmarks, owner)
    {
      reports := RunNext(benchmarks, build, clock, entries, i, now0, owner, expected, finals, reports);
      i := i + 1;
    }
  }

  /** After the whole run the timers are the recorded ones, still one per
      descriptor, and the list is ready to run again. */
  lemma Settled(registry: Registry, mpi: bool, entries: seq<Entry>, now: nat, reports: bool,
                finals: seq<TimerState>, owner: map<Timer, nat>)
    requires |entries| == |registry.benchmarks| && AllBehind(entries, now)
    requires finals == Finals(entries, |entries|, now, reports)
    requires Ran(registry.benchmarks, finals, 0, |entries|)
    requires Owns(registry.benchmarks, owner)
    ensures TimerModels(registry.benchmarks) == finals
    ensures registry.Valid()
    ensures AllBehind(Entries(registry.benchmarks, mpi), Finish(entries, |entries|, now))
  {
    var benchmarks := registry.benchmarks;
    var models := TimerModels(benchmarks);
    forall j | 0 <= j < |benchmarks|
      ensures models[j] == finals[j] && benchmarks[j].Valid()
    {
      RanAt(benchmarks, finals, 0, |entries|, j);
    }
    OwnersDistinct(registry.benchmarks, owner);
    RerunReady(registry.benchmarks, mpi, entries, now, reports);
  }

  /** run_benchmarks(). The timers are read but never finalized, so a
      MaxRankTimer reports this rank's own total. Each timer is left as its
      body's calls and, on rank 0, get_elapsed left it, so a second call
      adds to the same totals. The barrier the driver runs before each body
      takes no modelled time. */
  method RunBenchmarks(registry: Registry, build: Build, clock: Clock) returns (reports: seq<Report>)
    requires registry.Valid()
    requires AllBehind(Entries(registry.benchmarks, build.mpi), clock.now)
    modifies clock, set b | b in registry.benchmarks :: b.timer
    ensures var entries := old(Entries(registry.benchmarks, build.mpi));
      && clock.now == Finish(entries, |entries|, old(clock.now))
      && reports == (if Reports(build) then Reported(entries, |entries|, old(clock.now)) else [])
      && TimerModels(registry.benchmarks) == Finals(entries, |entries|, old(clock.now), Reports(build))
    ensures Reports(build) ==> |reports| == |registry.benchmarks|
    ensures !Reports(build) ==> reports == []
    ensures registry.Valid()
    ensures AllBehind(Entries(registry.benchmarks, build.mpi), clock.now)
  {
    ghost var now0 := clock.now;
    ghost var entries := Entries(registry.benchmarks, build.mpi);
    ghost var owner := Owners(registry.benchmarks);
    PendingAtStart(registry.benchmarks, build.mpi, entries, 0);
    reports := RunAll(registry.benchmarks, build, clock, entries, owner);
    Settled(registry, build.mpi, entries, now0, Reports(build), Finals(entries, |entries|, now0, Reports(build)), owner);
  }
}
