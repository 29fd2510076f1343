/** The timer strategies of the harness: WallTimer (a paused/running
    accumulator of nanoseconds), MaxRankTimer (a WallTimer whose finalize
    replaces the local total with the maximum over all ranks) and NoOpTimer
    (ignores every call and reports 0).

    The value level (TimerState and the functions on it) says what each call
    does; the class Timer is the object the harness shares between a
    Benchmark and the State that runs it, and each of its methods is proved
    to act as the value-level function says. */
module Timers {

  /** Which of the three timer classes an object is. */
  datatype Kind = Wall | MaxRank | NoOp

  /** The fields of a timer: the accumulated total, the paused flag and the
      clock reading at the last resume. A NoOpTimer has no fields; it is
      modelled with them held at their initial values (see Wf). */
  datatype TimerState = TimerState(kind: Kind, elapsed: nat, paused: bool, start: nat)

  /** A NoOpTimer never leaves its initial state. */
  predicate Wf(s: TimerState) {
    s.kind == NoOp ==> s.elapsed == 0 && s.paused && s.start == 0
  }

  /** The clock reading `now` is not earlier than the start of the running
      period, if there is one: what a monotone clock guarantees. */
  predicate Behind(s: TimerState, now: nat) {
    s.paused || s.start <= now
  }

  /** A newly constructed timer of the given class. */
  function Fresh(kind: Kind): (s: TimerState)
    ensures Wf(s) && s.kind == kind
    ensures s.paused && s.elapsed == 0
  {
    TimerState(kind, 0, true, 0)
  }

  /** pause(): a running wall timer adds the time since its start and stops;
      a paused timer, and a NoOpTimer, is left as it is. */
  function Paused(s: TimerState, now: nat): (r: TimerState)
    requires Behind(s, now)
    ensures r.kind == s.kind && r.start == s.start
    ensures r.elapsed >= s.elapsed
    ensures s.kind == NoOp || s.paused ==> r == s
    ensures s.kind != NoOp ==> r.paused
    ensures s.kind != NoOp && !s.paused ==> r.elapsed == s.elapsed + (now - s.start)
    ensures Wf(s) ==> Wf(r) && r.paused
  {
    if s.kind == NoOp || s.paused then s
    else s.(elapsed := s.elapsed + (now - s.start), paused := true)
  }

  /** resume(): a paused wall timer records the clock and runs; a running
      timer keeps its original start, and a NoOpTimer is left as it is. */
  function Resumed(s: TimerState, now: nat): (r: TimerState)
    ensures r.kind == s.kind && r.elapsed == s.elapsed
    ensures s.kind == NoOp || !s.paused ==> r == s
    ensures s.kind != NoOp ==> !r.paused
    ensures s.kind != NoOp && s.paused ==> r.start == now
    ensures Behind(s, now) ==> Behind(r, now)
    ensures Wf(s) ==> Wf(r)
  {
    if s.kind == NoOp || !s.paused then s
    else s.(start := now, paused := false)
  }

  /** get_elapsed(): pause first, then report the total; a NoOpTimer reports 0.
      The pair is the timer afterwards and the figure returned. */
  function Read(s: TimerState, now: nat): (r: (TimerState, nat))
    requires Behind(s, now)
    ensures r.0 == Paused(s, now)
    ensures Wf(s) ==> r.0.paused
    ensures r.1 == if s.kind == NoOp then 0 else r.0.elapsed
  {
    var p := Paused(s, now);
    (p, if s.kind == NoOp then 0 else p.elapsed)
  }

  /** The largest of a non-empty list of per-rank totals (MPI_MAX). */
  function Largest(values: seq<nat>): (m: nat)
    requires values != []
    ensures m in values
    ensures forall v :: v in values ==> v <= m
    decreases |values|
  {
    if |values| == 1 then values[0]
    else
      var rest := Largest(values[1..]);
      assert forall v :: v in values ==> v == values[0] || v in values[1..];
      if values[0] >= rest then values[0] else rest
  }

  /** finalize(): in an MPI build a MaxRankTimer takes the maximum of its own
      total and the totals of the other ranks (`peers`); every other case,
      and every timer in a build without MPI, is left unchanged. */
  function Finalized(s: TimerState, mpi: bool, peers: seq<nat>): (r: TimerState)
    ensures r.kind == s.kind && r.paused == s.paused && r.start == s.start
    ensures !(s.kind == MaxRank && mpi) ==> r == s
    ensures s.kind == MaxRank && mpi ==> r.elapsed in [s.elapsed] + peers
    ensures s.kind == MaxRank && mpi ==> s.elapsed <= r.elapsed && forall p :: p in peers ==> p <= r.elapsed
    ensures Wf(s) ==> Wf(r)
  {
    if s.kind == MaxRank && mpi then
      var all := [s.elapsed] + peers;
      assert s.elapsed == all[0];
      assert forall p :: p in peers ==> p in all;
      s.(elapsed := Largest(all))
    else s
  }

  /** Reading twice in a row gives the same figure and leaves the same
      timer: the first read already paused it. */
  lemma ReadIdempotent(s: TimerState, now: nat, later: nat)
    requires Wf(s) && Behind(s, now)
    ensures Read(Read(s, now).0, later) == Read(s, now)
  {
  }

  /** Every rank of a MaxRankTimer that finalizes with its own total and the
      totals of the others ends with the same figure: the maximum over all
      ranks. */
  lemma {:induction false} FinalizeAgreesAcrossRanks(totals: seq<nat>, rank: nat, s: TimerState)
    requires rank < |totals|
    requires s.kind == MaxRank && s.elapsed == totals[rank]
    ensures Finalized(s, true, totals[..rank] + totals[rank + 1..]).elapsed == Largest(totals)
  {
    var all := [totals[rank]] + (totals[..rank] + totals[rank + 1..]);
    forall v | v in totals
      ensures v in all
    {
      var j :| 0 <= j < |totals| && totals[j] == v;
      if j < rank {
        assert totals[..rank][j] == v;
      } else if j > rank {
        assert totals[rank + 1..][j - rank - 1] == v;
      } else {
        assert all[0] == v;
      }
    }
    forall v | v in all
      ensures v in totals
    {
      var j :| 0 <= j < |all| && all[j] == v;
      if j == 0 {
        assert totals[rank] == v;
      } else if j - 1 < rank {
        assert totals[j - 1] == v;
      } else {
        assert totals[j] == v;
      }
    }
    var mine := Largest(all);
    var theirs := Largest(totals);
    assert mine <= theirs && theirs <= mine;
  }

  /** What the instrumentation does to a timer, stamped with the clock
      reading at the call; a barrier does not touch the timer. */
  datatype Event = Resume(at: nat) | Pause(at: nat) | Barrier

  /** The clock reading once `e` has happened, when it read `now` before. */
  function After(e: Event, now: nat): nat {
    if e.Barrier? then now else e.at
  }

  /** The events happen in clock order, from the reading `now` on. */
  predicate Chronological(evs: seq<Event>, now: nat)
    decreases |evs|
  {
    evs == [] || (now <= After(evs[0], now) && Chronological(evs[1..], After(evs[0], now)))
  }

  /** The clock reading once all of `evs` have happened. */
  function Last(evs: seq<Event>, now: nat): nat
    decreases |evs|
  {
    if evs == [] then now else Last(evs[1..], After(evs[0], now))
  }

  /** The effect of one event on a timer. */
  function Step(s: TimerState, e: Event): TimerState
    requires e.Barrier? || Behind(s, e.at)
  {
    match e
    case Resume(at) => Resumed(s, at)
    case Pause(at) => Paused(s, at)
    case Barrier => s
  }

  /** The timer after the events, in order. With a monotone clock the total
      never decreases, a NoOpTimer stays at 0, and the timer keeps its class. */
  function Replay(s: TimerState, evs: seq<Event>, now: nat): (r: TimerState)
    requires Behind(s, now) && Chronological(evs, now)
    ensures r.kind == s.kind
    ensures r.elapsed >= s.elapsed
    ensures Behind(r, Last(evs, now))
    ensures Wf(s) ==> Wf(r)
    ensures Wf(s) && s.kind == NoOp ==> r == s
    decreases |evs|
  {
    if evs == [] then s
    else Replay(Step(s, evs[0]), evs[1..], After(evs[0], now))
  }

  /** The clock never runs backwards through a chronological list of events. */
  lemma {:induction false} LastNotEarlier(evs: seq<Event>, now: nat)
    requires Chronological(evs, now)
    ensures now <= Last(evs, now)
    decreases |evs|
  {
    if evs != [] {
      LastNotEarlier(evs[1..], After(evs[0], now));
    }
  }

  /** A list of events that is chronological from a later reading is
      chronological from an earlier one, and ends no later. */
  lemma {:induction false} ChronologicalFromEarlier(evs: seq<Event>, now: nat, later: nat)
    requires now <= later && Chronological(evs, later)
    ensures Chronological(evs, now)
    ensures Last(evs, now) <= Last(evs, later)
    decreases |evs|
  {
    if evs != [] {
      ChronologicalFromEarlier(evs[1..], After(evs[0], now), After(evs[0], later));
    }
  }

  /** Two chronological lists, the second starting no earlier than the first
      ends, make one chronological list. */
  lemma {:induction false} ChronologicalAppend(a: seq<Event>, b: seq<Event>, now: nat, mid: nat)
    requires Chronological(a, now) && Last(a, now) <= mid && Chronological(b, mid)
    ensures Chronological(a + b, now)
    ensures Last(a + b, now) <= Last(b, mid)
    decreases |a|
  {
    if a == [] {
      assert a + b == b;
      ChronologicalFromEarlier(b, now, mid);
    } else {
      assert (a + b)[1..] == a[1..] + b;
      ChronologicalAppend(a[1..], b, After(a[0], now), mid);
    }
  }

  /** Appending one event to a chronological log: replaying the longer log is
      replaying the shorter one and then taking the step. */
  lemma {:induction false} ReplaySnoc(s: TimerState, evs: seq<Event>, now: nat, e: Event)
    requires Behind(s, now) && Chronological(evs, now)
    requires Last(evs, now) <= After(e, Last(evs, now))
    ensures Chronological(evs + [e], now)
    ensures Last(evs + [e], now) == After(e, Last(evs, now))
    ensures Replay(s, evs + [e], now) == Step(Replay(s, evs, now), e)
    decreases |evs|
  {
    if evs == [] {
      assert evs + [e] == [e];
    } else {
      assert (evs + [e])[1..] == evs[1..] + [e];
      ReplaySnoc(Step(s, evs[0]), evs[1..], After(evs[0], now), e);
    }
  }

  /** Replaying does not depend on the reading the log is taken from, only
      on the events themselves. */
  lemma {:induction false} ReplayFromEarlier(s: TimerState, evs: seq<Event>, now: nat, later: nat)
    requires now <= later && Behind(s, now) && Chronological(evs, later)
    ensures Chronological(evs, now)
    ensures Replay(s, evs, now) == Replay(s, evs, later)
    decreases |evs|
  {
    ChronologicalFromEarlier(evs, now, later);
    if evs != [] {
      ReplayFromEarlier(Step(s, evs[0]), evs[1..], After(evs[0], now), After(evs[0], later));
    }
  }

  /** Replaying two chronological logs one after the other is replaying
      them joined. */
  lemma {:induction false} ReplayAppend(s: TimerState, a: seq<Event>, b: seq<Event>, now: nat, mid: nat)
    requires Behind(s, now) && Chronological(a, now) && Last(a, now) <= mid && Chronological(b, mid)
    ensures Chronological(a + b, now)
    ensures Behind(Replay(s, a, now), mid)
    ensures Replay(s, a + b, now) == Replay(Replay(s, a, now), b, mid)
    decreases |a|
  {
    ChronologicalAppend(a, b, now, mid);
    if a == [] {
      assert a + b == b;
      LastNotEarlier(a, now);
      ReplayFromEarlier(s, b, now, mid);
    } else {
      assert (a + b)[1..] == a[1..] + b;
      ReplayAppend(Step(s, a[0]), a[1..], b, After(a[0], now), mid);
    }
  }

  /** Between construction and finalize a MaxRankTimer is a WallTimer: on
      any chronological log the two accumulate the same total. */
  lemma {:induction false} ReplayAsWall(s: TimerState, evs: seq<Event>, now: nat)
    requires Behind(s, now) && Chronological(evs, now) && s.kind != NoOp
    ensures Replay(s.(kind := Wall), evs, now) == Replay(s, evs, now).(kind := Wall)
    decreases |evs|
  {
    if evs != [] {
      var e := evs[0];
      assert Step(s.(kind := Wall), e) == Step(s, e).(kind := Wall);
      ReplayAsWall(Step(s, e), evs[1..], After(e, now));
    }
  }

  /** A timer object: one class with a constant `kind` in place of the
      harness's three subclasses. */
  class Timer {
    const kind: Kind
    var elapsed: nat
    var paused: bool
    var start: nat

    function Model(): TimerState
      reads this
    {
      TimerState(kind, elapsed, paused, start)
    }

    ghost predicate Valid()
      reads this
    {
      Wf(Model())
    }

    constructor (kind: Kind)
      ensures Model() == Fresh(kind) && Valid()
    {
      this.kind := kind;
      elapsed := 0;
      paused := true;
      start := 0;
    }

    method Pause(now: nat)
      requires Behind(Model(), now)
      modifies this
      ensures Model() == Paused(old(Model()), now)
    {
      if kind != NoOp && !paused {
        elapsed := elapsed + (now - start);
        paused := true;
      }
    }

    method Resume(now: nat)
      modifies this
      ensures Model() == Resumed(old(Model()), now)
    {
      if kind != NoOp && paused {
        start := now;
        paused := false;
      }
    }

    /** `peers` are the totals the other ranks contribute to MPI_Allreduce. */
    method Finalize(mpi: bool, peers: seq<nat>)
      modifies this
      ensures Model() == Finalized(old(Model()), mpi, peers)
    {
      if kind == MaxRank && mpi {
        elapsed := Largest([elapsed] + peers);
      }
    }

    method GetElapsed(now: nat) returns (total: nat)
      requires Behind(Model(), now)
      modifies this
      ensures (Model(), total) == Read(old(Model()), now)
    {
      if kind == NoOp {
        total := 0;
      } else {
        Pause(now);
        total := elapsed;
      }
    }
  }
}
