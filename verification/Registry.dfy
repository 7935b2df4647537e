/** The nine schedulers of `src/sched/registry.c`, together. */
module Registry {
  import opened Processes
  import opened Engine
  import opened Timelines
  import opened WorkConservation
  import opened Selection
  import opened ContextSwitches
  import opened LittlesLaw
  import Fcfs
  import RoundRobin
  import Mlq
  import Mlfq
  import Cfs
  import SrtfOptimality
  import opened Disciplines
  import opened ScanDisciplines
  import FcfsDiscipline
  import RrDiscipline
  import MlqDiscipline
  import MlfqDiscipline
  import CfsDiscipline

  datatype Policy = FCFS | SJF | SRTF | PRIORITY_P | PRIORITY_NP | RR(quantum: int) | MLQ | MLFQ | CFS

  /** What a run leaves behind, without the scheduler's own state. */
  datatype Outcome = Outcome(procs: Table, timeline: seq<int>, switches: int)

  function Result<S>(r: Option<Sim<S>>): Option<Outcome> {
    if r.None? then None else Some(Outcome(r.value.procs, r.value.timeline, r.value.switches))
  }

  function RunPolicy(a: Policy, P: Table): Option<Outcome> {
    match a
    case FCFS => Result(Run(Fcfs.FcfsScheduler(), P))
    case SJF => Result(Run(Sjf(), P))
    case SRTF => Result(Run(Srtf(), P))
    case PRIORITY_P => Result(Run(PriorityP(), P))
    case PRIORITY_NP => Result(Run(PriorityNp(), P))
    case RR(q) => Result(Run(RoundRobin.Rr(q), P))
    case MLQ => Result(Run(Mlq.MlqScheduler(), P))
    case MLFQ => Result(Run(Mlfq.MlfqScheduler(), P))
    case CFS => Result(Run(Cfs.CfsScheduler(), P))
  }

  /** MLFQ and CFS index an array by pid; the other seven take any table the loader does. */
  ghost predicate Takes(a: Policy, P: Table) {
    Fresh(P) && (a == MLFQ || a == CFS ==> PidsFit(P))
  }

  /** The idle ticks of every work-conserving run of the table. */
  predicate IdleAt(P: Table, t: nat) { BusyBy(P, t) == ArrivedWork(P, t) }

  /** The shape that the table gives to a run: its length, and which ticks are idle. */
  ghost predicate Shaped(P: Table, r: Option<Outcome>) {
    && (r.Some? <==> Makespan(P) <= 8192)
    && (r.Some? ==>
          && |r.value.timeline| == Makespan(P) && |r.value.procs| == |P|
          && forall t :: 0 <= t < |r.value.timeline| ==> (r.value.timeline[t] == IDLE <==> IdleAt(P, t)))
  }

  lemma ShapedByWork<S>(sc: Scheduler<S>, P: Table)
    requires Fresh(P) && WorkConservingOn(sc, P)
    ensures Shaped(P, Result(Run(sc, P)))
  {
    WorkConservation.Outcome(sc, P);
  }

  lemma ScanPolicyIsShaped(a: Policy, P: Table)
    requires Fresh(P) && (a == SJF || a == SRTF || a == PRIORITY_P || a == PRIORITY_NP)
    ensures Shaped(P, RunPolicy(a, P))
  {
    match a
    case SJF => NonPreemptiveConserves(ByBurst, P); ShapedByWork(Sjf(), P);
    case SRTF => PreemptiveConserves(ByRemaining, P); ShapedByWork(Srtf(), P);
    case PRIORITY_P => PreemptiveConserves(ByPriority, P); ShapedByWork(PriorityP(), P);
    case PRIORITY_NP => NonPreemptiveConserves(ByPriority, P); ShapedByWork(PriorityNp(), P);
  }

  lemma QueuePolicyIsShaped(a: Policy, P: Table)
    requires Fresh(P) && (a == FCFS || a.RR? || a == MLQ)
    ensures Shaped(P, RunPolicy(a, P))
  {
    match a
    case FCFS => Fcfs.Conserves(P); ShapedByWork(Fcfs.FcfsScheduler(), P);
    case RR(q) => RoundRobin.Conserves(q, P); ShapedByWork(RoundRobin.Rr(q), P);
    case MLQ => Mlq.Conserves(P); ShapedByWork(Mlq.MlqScheduler(), P);
  }

  lemma IndexingPolicyIsShaped(a: Policy, P: Table)
    requires Indexable(P) && (a == MLFQ || a == CFS)
    ensures Shaped(P, RunPolicy(a, P))
  {
    match a
    case MLFQ => Mlfq.Conserves(P); ShapedByWork(Mlfq.MlfqScheduler(), P);
    case CFS => Cfs.Conserves(P); ShapedByWork(Cfs.CfsScheduler(), P);
  }

  /** No policy of the nine ever fails a guard: the engine returns 0 exactly when the table's
      makespan fits the cap, after that many ticks, idle on the same ones. */
  lemma EveryPolicyIsShaped(a: Policy, P: Table)
    requires Takes(a, P)
    ensures Shaped(P, RunPolicy(a, P))
  {
    if a == MLFQ || a == CFS {
      IndexingPolicyIsShaped(a, P);
    } else if a == FCFS || a.RR? || a == MLQ {
      QueuePolicyIsShaped(a, P);
    } else {
      ScanPolicyIsShaped(a, P);
    }
  }

  /** A single process one tick longer than the cap. */
  const TOO_LONG: Table := [Process(1, 0, 8193, 0, 0, 0, 8193, -1, -1)]

  /** The loader takes it, and the engine returns -1 under every policy, though none is at fault. */
  lemma TooLongForAll(a: Policy)
    ensures Loaded(TOO_LONG) && Takes(a, TOO_LONG) && RunPolicy(a, TOO_LONG).None?
  {
    EveryPolicyIsShaped(a, TOO_LONG);
    assert Makespan(TOO_LONG) == FinishFrom(TOO_LONG, 8193, 1) == 8193;
  }

  /** On any table all nine succeed or fail together, take the same total time and idle on the
      same ticks; and they succeed when the last arrival plus all the bursts fits the cap. */
  lemma NineAgree(a: Policy, b: Policy, P: Table)
    requires Takes(a, P) && Takes(b, P)
    ensures RunPolicy(a, P).Some? <==> RunPolicy(b, P).Some?
    ensures RunPolicy(a, P).Some? ==>
              var x, y := RunPolicy(a, P).value.timeline, RunPolicy(b, P).value.timeline;
              && |x| == |y|
              && (forall t :: 0 <= t < |x| ==> (x[t] == IDLE <==> y[t] == IDLE))
              && (|P| > 0 ==> |x| <= P[|P| - 1].arrival + SumBurst(P, |P|))
    ensures |P| > 0 && P[|P| - 1].arrival + SumBurst(P, |P|) <= 8192 ==> RunPolicy(a, P).Some?
  {
    EveryPolicyIsShaped(a, P);
    EveryPolicyIsShaped(b, P);
    if |P| > 0 { FinishAtMost(P, 0, 0); }
  }

  /** FCFS, SJF and non-preemptive priority make the fewest switches of the nine: one fewer
      than the processes of each busy block. */
  lemma ThreeSwitchLeast(a: Policy, b: Policy, P: Table)
    requires Takes(b, P) && (a == FCFS || a == SJF || a == PRIORITY_NP) && RunPolicy(a, P).Some?
    ensures RunPolicy(b, P).Some? && RunPolicy(a, P).value.switches <= RunPolicy(b, P).value.switches
    ensures var r := RunPolicy(a, P).value; r.switches == |P| - Blocks(r.timeline, |r.timeline|)
  {
    EveryPolicyIsShaped(a, P);
    EveryPolicyIsShaped(b, P);
    ThreeInterruptNobody(P);
    FloorOf(a, P);
    FloorOf(b, P);
    SameIdleSameBlocks(RunPolicy(a, P).value.timeline, RunPolicy(b, P).value.timeline, Makespan(P));
  }

  /** `SwitchFloor` on an outcome. */
  ghost predicate Floored(P: Table, r: Option<Outcome>) {
    r.Some? ==>
      var tl := r.value.timeline;
      var floor := |P| - Blocks(tl, |tl|);
      r.value.switches >= floor && (r.value.switches == floor <==> Uninterrupted(r.value.procs))
  }

  lemma FloorByRun<S>(sc: Scheduler<S>, P: Table)
    requires Fresh(P)
    ensures Floored(P, Result(Run(sc, P)))
  {
    if Run(sc, P).Some? { SwitchFloor(sc, P); }
  }

  lemma FloorOfScans(a: Policy, P: Table)
    requires Fresh(P) && (a == SJF || a == SRTF || a == PRIORITY_P || a == PRIORITY_NP)
    ensures Floored(P, RunPolicy(a, P))
  {
    match a
    case SJF => FloorByRun(Sjf(), P);
    case SRTF => FloorByRun(Srtf(), P);
    case PRIORITY_P => FloorByRun(PriorityP(), P);
    case PRIORITY_NP => FloorByRun(PriorityNp(), P);
  }

  lemma FloorOfQueues(a: Policy, P: Table)
    requires Fresh(P) && (a == FCFS || a.RR? || a == MLQ)
    ensures Floored(P, RunPolicy(a, P))
  {
    match a
    case FCFS => FloorByRun(Fcfs.FcfsScheduler(), P);
    case RR(q) => FloorByRun(RoundRobin.Rr(q), P);
    case MLQ => FloorByRun(Mlq.MlqScheduler(), P);
  }

  lemma FloorOf(a: Policy, P: Table)
    requires Takes(a, P)
    ensures Floored(P, RunPolicy(a, P))
  {
    if a == MLFQ {
      FloorByRun(Mlfq.MlfqScheduler(), P);
    } else if a == CFS {
      FloorByRun(Cfs.CfsScheduler(), P);
    } else if a == FCFS || a.RR? || a == MLQ {
      FloorOfQueues(a, P);
    } else {
      FloorOfScans(a, P);
    }
  }

  /** Whenever there is an outcome there is one of SRTF, with no more waiting. */
  ghost predicate NoBetterThanSrtf(P: Table, r: Option<Outcome>) {
    r.Some? ==>
      && RunPolicy(SRTF, P).Some? && |r.value.procs| == |RunPolicy(SRTF, P).value.procs| == |P|
      && TotalWaiting(RunPolicy(SRTF, P).value.procs, |P|) <= TotalWaiting(r.value.procs, |P|)
  }

  lemma SrtfBeats<S>(sc: Scheduler<S>, P: Table)
    requires Fresh(P)
    ensures NoBetterThanSrtf(P, Result(Run(sc, P)))
  {
    if Run(sc, P).Some? { SrtfOptimality.SrtfMinimisesWaiting(sc, P); }
  }

  lemma SrtfIsBestScans(a: Policy, P: Table)
    requires Fresh(P) && (a == SJF || a == SRTF || a == PRIORITY_P || a == PRIORITY_NP)
    ensures NoBetterThanSrtf(P, RunPolicy(a, P))
  {
    match a
    case SJF => SrtfBeats(Sjf(), P);
    case SRTF => SrtfBeats(Srtf(), P);
    case PRIORITY_P => SrtfBeats(PriorityP(), P);
    case PRIORITY_NP => SrtfBeats(PriorityNp(), P);
  }

  lemma SrtfIsBestQueues(a: Policy, P: Table)
    requires Fresh(P) && (a == FCFS || a.RR? || a == MLQ)
    ensures NoBetterThanSrtf(P, RunPolicy(a, P))
  {
    match a
    case FCFS => SrtfBeats(Fcfs.FcfsScheduler(), P);
    case RR(q) => SrtfBeats(RoundRobin.Rr(q), P);
    case MLQ => SrtfBeats(Mlq.MlqScheduler(), P);
  }

  /** SRTF's total waiting is least among the nine; in particular it is no more than SJF's. */
  lemma SrtfIsBest(a: Policy, P: Table)
    requires Takes(a, P)
    ensures NoBetterThanSrtf(P, RunPolicy(a, P))
  {
    if a == MLFQ {
      SrtfBeats(Mlfq.MlfqScheduler(), P);
    } else if a == CFS {
      SrtfBeats(Cfs.CfsScheduler(), P);
    } else if a == FCFS || a.RR? || a == MLQ {
      SrtfIsBestQueues(a, P);
    } else {
      SrtfIsBestScans(a, P);
    }
  }

  // ---------- What each policy is ----------

  /** The ranking that each policy is meant to serve by. */
  ghost function RankOf(a: Policy): Ranking {
    match a
    case FCFS => FcfsRank()
    case SJF => SjfRank()
    case SRTF => SrtfRank()
    case PRIORITY_P => PriorityPRank()
    case PRIORITY_NP => PriorityNpRank()
    case RR(q) => TurnRank(RrTurns(q))
    case MLQ => TurnRank(MlqTurns())
    case MLFQ => TurnRank(MlfqTurns())
    case CFS => CfsRank()
  }

  /** `tl` finishes every process within the cap, not before its last tick, and every tick of it
      goes where the ranking says. */
  ghost predicate Prescribed(rank: Ranking, P: Table, tl: seq<int>) {
    CompleteRun(P, tl) && |tl| <= 8192 && Follows(rank, P, tl)
  }

  ghost predicate RunsAs(r: Option<Outcome>, rank: Ranking, P: Table, tl: seq<int>) {
    Prescribed(rank, P, tl) <==> r.Some? && r.value.timeline == tl
  }

  lemma RunsAsByRank<S>(sc: Scheduler<S>, P: Table, rank: Ranking, tl: seq<int>)
    requires Fresh(P) && Obeys(sc, P, rank)
    ensures RunsAs(Result(Run(sc, P)), rank, P, tl)
  {
    RunIsTheTimeline(sc, P, rank, tl);
  }

  lemma ScanPolicyIs(a: Policy, P: Table, tl: seq<int>)
    requires Fresh(P) && (a == SJF || a == SRTF || a == PRIORITY_P || a == PRIORITY_NP)
    ensures RunsAs(RunPolicy(a, P), RankOf(a), P, tl)
  {
    match a
    case SJF => SjfObeys(P); RunsAsByRank(Sjf(), P, SjfRank(), tl);
    case SRTF => SrtfObeys(P); RunsAsByRank(Srtf(), P, SrtfRank(), tl);
    case PRIORITY_P => PriorityPObeys(P); RunsAsByRank(PriorityP(), P, PriorityPRank(), tl);
    case PRIORITY_NP => PriorityNpObeys(P); RunsAsByRank(PriorityNp(), P, PriorityNpRank(), tl);
  }

  lemma QueuePolicyIs(a: Policy, P: Table, tl: seq<int>)
    requires Fresh(P) && (a == FCFS || a.RR? || a == MLQ)
    ensures RunsAs(RunPolicy(a, P), RankOf(a), P, tl)
  {
    match a
    case FCFS => FcfsDiscipline.FcfsObeys(P); RunsAsByRank(Fcfs.FcfsScheduler(), P, FcfsRank(), tl);
    case RR(q) => RrDiscipline.RrObeys(q, P); RunsAsByRank(RoundRobin.Rr(q), P, TurnRank(RrTurns(q)), tl);
    case MLQ => MlqDiscipline.MlqObeys(P); RunsAsByRank(Mlq.MlqScheduler(), P, TurnRank(MlqTurns()), tl);
  }

  lemma IndexingPolicyIs(a: Policy, P: Table, tl: seq<int>)
    requires Indexable(P) && (a == MLFQ || a == CFS)
    ensures RunsAs(RunPolicy(a, P), RankOf(a), P, tl)
  {
    match a
    case MLFQ => MlfqDiscipline.MlfqObeys(P); RunsAsByRank(Mlfq.MlfqScheduler(), P, TurnRank(MlfqTurns()), tl);
    case CFS => CfsDiscipline.CfsObeys(P); RunsAsByRank(Cfs.CfsScheduler(), P, CfsRank(), tl);
  }

  /** Each of the nine runs exactly as its ranking prescribes: of all timelines of a table the
      prescribed one, and there is at most one, is the one that the engine accepts from it. */
  lemma PolicyIsItsRanking(a: Policy, P: Table, tl: seq<int>)
    requires Takes(a, P)
    ensures Prescribed(RankOf(a), P, tl) <==> RunPolicy(a, P).Some? && RunPolicy(a, P).value.timeline == tl
  {
    if a == MLFQ || a == CFS {
      IndexingPolicyIs(a, P, tl);
    } else if a == FCFS || a.RR? || a == MLQ {
      QueuePolicyIs(a, P, tl);
    } else {
      ScanPolicyIs(a, P, tl);
    }
  }
}
