/** Whole runs of the harness on small registries: the reports this model
    gives, rank by rank, for a program that registers benchmarks and calls
    run_benchmarks. The figures are the model's, under its assumptions that
    the harness's own calls take no time and that the clock never steps
    back. */
module Scenarios {
  import opened Timers
  import opened Clocks
  import opened Iteration
  import opened World
  import opened Benchmarks
  import opened Driver

  /** The empty-loop benchmark (a body that is only `for (auto _ : state) {}`,
      configured with root-rank timing and no barrier) as run_benchmarks
      finds it. */
  function EmptyLoopEntry(build: Build, wait: nat): Entry {
    Entry("empty", [Loop(wait)], false, Fresh(if Rank(build) == 0 then Wall else NoOp))
  }

  /** On a reporting rank the empty loop reports 0 ns, whatever the build:
      with the barrier off, end() starts the timer and the first loop test
      stops it at the same clock reading. */
  lemma EmptyLoopReport(build: Build, wait: nat)
    requires Reports(build)
    ensures AllBehind([EmptyLoopEntry(build, wait)], 0)
    ensures Reported([EmptyLoopEntry(build, wait)], 1, 0) == [Report("empty", 0, Iterations, 0)]
  {
    var e := EmptyLoopEntry(build, wait);
    assert AllBehind([e], 0);
    ReportedLast([e], 1, 0);
    EmptyLoopMeasuresBarrier(e.timer, wait, false, 0);
    assert LastBytes(e.body, 0) == 0;
    assert Expected(e, 0) == Report("empty", 0, Iterations, 0);
  }

  /** Register the empty loop, configure it with timing_root_rank() and then
      no_iter_barrier(), and run the registry. `wait` is how long this rank
      would wait at a barrier. */
  method RunEmptyLoop(build: Build, wait: nat) returns (reports: seq<Report>)
    ensures !Reports(build) ==> reports == []
    ensures Reports(build) ==> reports == [Report("empty", 0, Iterations, 0)]
  {
    var registry := new Registry();
    var clock := new Clock(0);
    var b := registry.RegisterBench("empty", [Loop(wait)]);
    b := b.TimingRootRank(build);
    b := b.NoIterBarrier();
    assert registry.benchmarks == [b];
    assert Entries(registry.benchmarks, build.mpi) == [EmptyLoopEntry(build, wait)];
    if Reports(build) {
      EmptyLoopReport(build, wait);
    }
    reports := RunBenchmarks(registry, build, clock);
  }
}
