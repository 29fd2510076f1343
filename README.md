# bench: a verified model of the timing and iteration core

This project models the core of `bench`, a micro-benchmark harness for MPI
programs: the timer strategies (`WallTimer`, `MaxRankTimer`, `NoOpTimer`),
the `State` and its `Iterator` that a benchmark body loops over, the
`Benchmark` descriptor with its fluent configuration calls, the process-wide
registry filled by `register_bench`, and the `run_benchmarks` driver.

The model is imperative where the harness is:

- `Timers.Timer` is one class with a constant `kind` in place of the three
  C++ subclasses. Each of its methods is proved to act on the fields as a
  value-level function on `Timers.TimerState` says (`Paused`, `Resumed`,
  `Read`, `Finalized`).
- `Iteration.State` and `Iteration.Iterator` are classes sharing the
  benchmark's timer. Every timer call and every barrier is logged in the
  State's ghost `trace`. `State.Valid` ties the timer to that log: the timer
  is what replaying the log on the timer the State started with gives.
- `Benchmarks.Benchmark` and `Driver.Registry` are classes. The registry's
  list is a `seq` field that `RegisterBench` reassigns. `RunBenchmarks` is a
  loop over that list.

The environment is made explicit:

- The clock (`std::chrono::high_resolution_clock`) is a `Clocks.Clock` object
  holding a `nat` reading in nanoseconds. Only `Advance` moves it, and only
  forwards.
- The BENCH_USE_MPI build switch, the rank and the world size form a
  `World.Build` value.
- `MPI_Barrier` is a logged `Barrier` event during which this rank waits a
  given number of nanoseconds.
- `MPI_Allreduce(MPI_MAX)` takes the other ranks' totals as a parameter.
- A benchmark body is user code the harness cannot see. It is modelled as a
  script of `Benchmarks.Action`s: let time pass, loop over the State, set the
  bytes processed, or start and stop the timer.

Behaviours of the code that the model keeps as written:

- The loop test at `include/bench/bench.hpp:136` is `(remaining_ != 0, false)`.
  This is a comma expression whose value is always `false`. So `it != end`
  always pauses the timer and answers false, and a range-for over a `State`
  never runs its body, whatever the iteration count (`Iteration.RangeFor`).
  The commented-out line above it shows that `remaining_ != 0` was meant.
- `State::end()` starts the timer (`include/bench/bench.hpp:161-162`), and
  `State::begin()` does not. The comment at `include/bench/bench.hpp:129`
  says that timing was paused in `operator++`. That is not so on the first
  loop test: `operator++` has not run yet, and the timer has been running
  since `end()`. The wait at the leading barrier is therefore charged to the
  timer (`Iteration.RangeForCharges`, `Benchmarks.EmptyLoopMeasuresBarrier`).
- `run_benchmarks` never calls `finalize()`. A `MaxRankTimer` therefore
  reports this rank's own total (`Benchmarks.MaxRankMeasuresOwnTotal`), not
  the maximum over ranks that its `finalize` computes
  (`include/bench/bench.hpp:64-70`).
- `--remaining_` on a `uint64_t` wraps from 0 to 2^64 - 1 (`Iteration.Decrement`).
- Registering two benchmarks under the same name is accepted.

## Model

| member | source | states |
|---|---|---|
| `Timers.Fresh` | include/bench/bench.hpp:39 | a new timer is paused with a total of 0 |
| `Timers.Timer.constructor` | include/bench/bench.hpp:39 | the object starts in the `Fresh` state of its kind |
| `Timers.Paused` | include/bench/bench.hpp:40-46 | a running wall timer adds `now - start` and becomes paused; a paused timer or a NoOpTimer is unchanged; the total never decreases |
| `Timers.Timer.Pause` | include/bench/bench.hpp:40-46 | the object's new fields are `Paused` of its old fields |
| `Timers.Resumed` | include/bench/bench.hpp:47-52 | a paused wall timer records `start := now` and runs; a running timer keeps its start; the total is untouched |
| `Timers.Timer.Resume` | include/bench/bench.hpp:47-52 | the object's new fields are `Resumed` of its old fields |
| `Timers.Read` | include/bench/bench.hpp:56-59 | `get_elapsed` pauses first and returns the paused total; a NoOpTimer returns 0 |
| `Timers.Timer.GetElapsed` | include/bench/bench.hpp:56-59 | the returned figure and the new fields are those `Read` gives |
| `Timers.ReadIdempotent` | include/bench/bench.hpp:56-59 | two reads in a row return the same figure and leave the same timer, whatever the clock did in between |
| `Timers.Largest` | include/bench/bench.hpp:66-68 | the MPI_MAX reduction: an element of the list, and no element exceeds it |
| `Timers.Finalized` | include/bench/bench.hpp:54-78 | only a MaxRankTimer in an MPI build changes, taking the maximum of its own total and the other ranks' totals; WallTimer, NoOpTimer and every non-MPI build are unchanged |
| `Timers.Timer.Finalize` | include/bench/bench.hpp:54-78 | the object's new fields are `Finalized` of its old fields |
| `Timers.FinalizeAgreesAcrossRanks` | include/bench/bench.hpp:64-70 | every rank that finalizes with its own total and the others' ends with the same figure, the maximum over all ranks |
| `Timers.Replay` | include/bench/bench.hpp:40-78 | over any clock-ordered sequence of pause/resume calls the total never decreases, the kind is kept, and a NoOpTimer never leaves its initial state |
| `Timers.ReplayAsWall` | include/bench/bench.hpp:62-71 | before finalize a MaxRankTimer accumulates exactly what a WallTimer does |
| `World.Rank` | src/bench.cpp:24-31 | `world_rank()` is 0 without MPI and the MPI rank with it |
| `World.Size` | src/bench.cpp:33-40 | `world_size()` is 1 without MPI and the MPI size with it |
| `World.SerialBuildReports` | src/bench.cpp:24-40 | in a build without MPI the single process is rank 0 of 1 and reports |
| `Iteration.Decrement` | include/bench/bench.hpp:152 | `--remaining_` is one less for a positive count and wraps modulo 2^64 |
| `Iteration.State.constructor` | include/bench/bench.hpp:85-87 | the given iteration count, bytes processed 0, no error, the shared timer and the barrier flag; the log is empty |
| `Iteration.State.StartRunning` | include/bench/bench.hpp:92 | resumes the shared timer and logs one Resume |
| `Iteration.State.FinishRunning` | include/bench/bench.hpp:93 | pauses the shared timer and logs one Pause |
| `Iteration.State.AwaitBarrier` | include/bench/bench.hpp:130 | the barrier logs one Barrier, lets the wait pass on the clock, and leaves the timer alone |
| `Iteration.State.SetBytesProcessed` | include/bench/bench.hpp:94 | the bytes figure becomes the given value |
| `Iteration.State.Begin` | include/bench/bench.hpp:118-120 | the iterator has the full count and the State's barrier flag; the timer is not touched |
| `Iteration.State.End` | include/bench/bench.hpp:160-164 | `end()` resumes the timer once and returns the sentinel with count 0 |
| `Iteration.Iterator.Sentinel` | include/bench/bench.hpp:117 | the sentinel has no parent and count 0 |
| `Iteration.Iterator.Of` | include/bench/bench.hpp:118-120 | the iterator copies the State's count and barrier flag |
| `Iteration.Iterator.PauseTiming` | include/bench/bench.hpp:156 | logs one Pause on the parent's timer |
| `Iteration.Iterator.ResumeTiming` | include/bench/bench.hpp:157 | logs one Resume on the parent's timer |
| `Iteration.Iterator.NotEqual` | include/bench/bench.hpp:125-141 | always answers false; with MPI and the barrier on it logs Barrier then Resume; it always then logs Pause |
| `Iteration.Iterator.Increment` | include/bench/bench.hpp:143-154 | decrements the count by one (mod 2^64) and logs a Pause only when MPI and the barrier are both on |
| `Iteration.RangeFor` | include/bench/bench.hpp:125-164 | a range-for over a State runs its body zero times for every iteration count, logging end()'s Resume followed by one loop test |
| `Iteration.RangeForCharges` | include/bench/bench.hpp:125-164 | a range-for charges the timer with everything from end() to the first loop test, including the leading barrier's wait, and leaves it paused |
| `Iteration.BarrierWaitNotCharged` | include/bench/bench.hpp:125-154 | between `++it` and the next loop test, the barrier's wait is not added to the total |
| `Benchmarks.LastWriteWins` | include/bench/bench.hpp:94-95 | `bytes_processed()` reads the last value written by `set_bytes_processed` |
| `Benchmarks.NoWriteKeepsInitial` | include/bench/bench.hpp:86 | a body that never sets the bytes figure reads back the initial value |
| `Benchmarks.NoOpMeasuresZero` | include/bench/bench.hpp:73-78 | a NoOpTimer reports 0 after any body |
| `Benchmarks.MaxRankMeasuresOwnTotal` | src/bench.cpp:60-67 | without finalize, a MaxRankTimer reports what a WallTimer would: this rank's own total |
| `Benchmarks.EmptyLoopMeasuresBarrier` | include/bench/bench.hpp:125-164 | a body that only loops over its State measures exactly the leading barrier's wait, or 0 without MPI or barrier |
| `Benchmarks.Configure` | include/bench/bench.hpp:177-199 | `timing_root_rank` installs a WallTimer iff rank is 0 and a NoOpTimer otherwise; `timing_max_rank` installs a MaxRankTimer; neither touches the flag; `no_iter_barrier` clears only the flag |
| `Benchmarks.BarrierOffIffRequested` | include/bench/bench.hpp:169-199 | after any chain of configuration calls, the barrier is on iff it was on before and `no_iter_barrier` was not called |
| `Benchmarks.NonRootRankNeverTimes` | include/bench/bench.hpp:177-187 | off rank 0, a descriptor that never asked for max-rank timing keeps a NoOpTimer |
| `Benchmarks.Benchmark.constructor` | include/bench/bench.hpp:168-169 | a new descriptor has the given name and body, a fresh NoOpTimer and the barrier on |
| `Benchmarks.Benchmark.TimingRootRank` | include/bench/bench.hpp:177-187 | replaces the timer by a fresh one of the kind `Configure` gives and returns the same descriptor |
| `Benchmarks.Benchmark.TimingMaxRank` | include/bench/bench.hpp:190 | replaces the timer by a fresh MaxRankTimer and returns the same descriptor |
| `Benchmarks.Benchmark.NoIterBarrier` | include/bench/bench.hpp:199 | clears the barrier flag, keeps the timer, and returns the same descriptor |
| `Benchmarks.Benchmark.Run` | src/bench.cpp:86 | runs the body action by action: the log, the clock and the bytes figure are those the body's script determines |
| `Benchmarks.TimerAfter` | src/bench.cpp:60 | running a body keeps the timer's kind, never lowers its total, leaves it paused or started no later than the body's end, and leaves a NoOpTimer as it was |
| `Benchmarks.TimerAfterReplays` | src/bench.cpp:60 | running the body action by action leaves the timer exactly as replaying the body's whole log of timer calls on it does |
| `Driver.NsPerIteration` | src/bench.cpp:66-67 | the per-iteration figure times the iteration count is the timer's total |
| `Driver.Throughput` | src/bench.cpp:68-75 | the throughput figure is printed iff the bytes figure is nonzero, and is the bytes over the seconds per iteration |
| `Driver.Registry.constructor` | src/bench.cpp:88 | the registry starts empty |
| `Driver.Registry.RegisterBench` | src/bench.cpp:81-84 | appends exactly one new descriptor with the given name, a NoOpTimer and the barrier on, keeps earlier entries, and returns it |
| `Driver.Expected` | src/bench.cpp:52-67 | each report carries the benchmark's name, 10000 iterations and the body's last bytes figure |
| `Driver.AfterRun` | src/bench.cpp:60-67 | the timer a run leaves keeps its kind, never has a lower total, and is paused or started no later than the body's end |
| `Driver.AfterRunReplays` | src/bench.cpp:60-67 | the timer a run leaves is the body's whole log of timer calls replayed on the starting timer, then on a reporting rank the pause `get_elapsed` makes at the body's end |
| `Driver.AfterRunReported` | src/bench.cpp:64-67 | on the reporting rank the timer is left paused, holding exactly the total that was reported (a NoOpTimer reports 0) |
| `Driver.Finals` | src/bench.cpp:44-78 | the loop leaves one timer per entry it has run |
| `Driver.FinalsAt` | src/bench.cpp:44-78 | the j-th timer left is what the j-th entry's own run leaves, its body started where the bodies before it ended |
| `Driver.FinalBehind` | src/bench.cpp:44-78 | each timer left is paused or started no later than the clock reads once the whole list has run |
| `Driver.FinalsBehind` | src/bench.cpp:44-78 | every timer left is paused or started no later than the final clock reading, so the list can be run again |
| `Driver.RerunReady` | src/bench.cpp:42-79 | once the timers are those the run leaves, every entry of the list is ready for a second run from the final clock reading |
| `Driver.Settled` | src/bench.cpp:42-79 | after the whole loop each descriptor's timer is the one its own run left, the registry is still one valid timer per descriptor, and it is ready to run again |
| `Driver.ReportsInOrder` | src/bench.cpp:44-78 | the j-th report is the j-th registered benchmark's, run after the bodies of those before it |
| `Driver.RunOne` | src/bench.cpp:45-77 | a fresh State of 10000 iterations over the descriptor's timer and flag; a report iff this rank is 0, equal to what the unfinalized timer reads; the clock ends where the body ends; the timer is left valid and as `AfterRun` gives: the body's log replayed, then on rank 0 the pause of `get_elapsed` |
| `Driver.RunAll` | src/bench.cpp:44-78 | the loop visits every entry once, in order: the clock ends after all the bodies, rank 0's reports are `Reported` of the whole list and other ranks' are empty, and each timer is the one its own run left (`Finals`) |
| `Driver.RunBenchmarks` | src/bench.cpp:42-79 | rank 0 gets one report per registered benchmark, in registration order; other ranks get none; the clock ends after all the bodies; the timers are exactly `Finals` of the list, the registry stays valid, and every entry is ready for a second run from the final clock reading |
| `Scenarios.EmptyLoopReport` | bin/empty.cpp:5-10 | the empty loop with root-rank timing and no barrier reports 0 ns on a reporting rank |
| `Scenarios.RunEmptyLoop` | bin/empty.cpp:5-11 | registering and running the empty loop yields exactly that report on rank 0 and nothing elsewhere |

## Left out

- The MPI runtime itself (`MPI_Init`, `MPI_Finalize`, `MPI_Comm_rank`, `MPI_Comm_size`, `MPI_Barrier`, `MPI_Allreduce`): `init` and `finalize` are passthroughs and are not modelled; rank, size, barrier waits and other ranks' totals are parameters.
- The real clock: its readings are the `Clock` object's `now`, advanced by the environment.
- Floating point: elapsed totals are `nat` nanoseconds rather than `double`; the report's figures are stated over `real` and the `inf` a zero time would print is a separate case.
- Console output (`std::cerr`, `std::cout`): the driver returns the reports instead of printing them, and the "running <name>" line is not modelled.
- `new`/`delete` ownership of timers: a replaced timer is simply no longer referenced, so the delete in `timing_root_rank` and the leak in `timing_max_rank` are not distinguished.
- The fluent setters fall off the end without a `return`, which is undefined behaviour in C++; they are modelled as returning the same descriptor.
- `timing_wall` and `timing_aggregate` are declared but never defined, so they are not modelled. The `#if 0` template block is not modelled either.
- The harness's own calls take no modelled time: a timer call reads the
  clock where the previous action left it. The time spent between
  `resume()`'s and `pause()`'s own `Clock::now()` calls, which the real
  timer charges to itself, is not modelled.
- The clock is assumed never to step back. `high_resolution_clock` need not
  be steady; when it steps back, the real `elapsed_ +=` subtracts, and the
  model does not cover that case.
- The barrier `run_benchmarks` runs before each body (src/bench.cpp:57) takes no modelled time, and it does not touch the timer.
- The State's `error_` flag is stored and never read.
- `Iterator::operator*` returns an empty value and is not modelled.
- The bodies of bin/pingpong.cpp and bin/allreduce.cpp are user code driving MPI communication and are not modelled. The body of bin/empty.cpp is modelled as a one-action script.
- Benchmark bodies are finite scripts of actions rather than arbitrary code.
