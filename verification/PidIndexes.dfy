/** The pids that MLFQ and CFS runs use as array indexes. */
module PidIndexes {
  import opened Processes
  import opened Engine
  import opened Timelines
  import opened WorkConservation
  import opened ReadyLists
  import opened MultiQueue
  import Mlfq
  import Cfs
  import Fcfs

  /** Ticks that the engine's loop goes through. */
  ghost predicate Simulated<S>(sc: Scheduler<S>, P: Table, t: nat) {
    t < MAX_TICKS && Running(sc, P, t)
  }

  /** `idx` lists the pids that the callbacks of the tick after a state use as indexes. */
  ghost predicate IndexesFit<S>(sc: Scheduler<S>, P: Table, idx: Sim<S> -> seq<int>) {
    forall t: nat, x :: Simulated(sc, P, t) && x in idx(After(sc, P, t).value) ==> 0 <= x <= MAX_PROCESSES
  }

  /** `PidsFit` for those that arrive before the engine gives up. */
  ghost predicate EarlyPidsFit(P: Table) {
    forall i :: 0 <= i < |P| && P[i].arrival < MAX_TICKS ==> 0 <= P[i].pid <= MAX_PROCESSES
  }

  /** Every arrival is used as an index, and nobody who is not ready is. */
  ghost predicate Indexes<S>(sc: Scheduler<S>, P: Table, idx: Sim<S> -> seq<int>, t: nat) {
    var r := After(sc, P, t);
    && r.Some?
    && (forall x :: x in Arriving(r.value.procs, t) ==> x in idx(r.value))
    && (forall x :: x in idx(r.value) ==> x in Ready(r.value.procs, t))
  }

  lemma {:induction false} ArrivingHas(ps: Table, t: int, i: nat, k: nat)
    requires i < k <= |ps| && ps[i].arrival == t
    ensures ps[i].pid in ArrivingPids(ps, t, k)
  {
    if i < k - 1 { ArrivingHas(ps, t, i, k - 1); }
  }

  /** Until a process has arrived the run is not over. */
  lemma NotOverYet<S>(sc: Scheduler<S>, P: Table, t: nat, i: nat)
    requires Fresh(P) && After(sc, P, t).Some? && i < |P| && P[i].arrival >= t
    ensures Running(sc, P, t)
  {
    Ledger(sc, P, t);
    Books(P, After(sc, P, t).value.timeline, i, t);
  }

  lemma ArrivalIsIndexed<S>(sc: Scheduler<S>, P: Table, idx: Sim<S> -> seq<int>, i: nat)
    requires Fresh(P) && i < |P| && P[i].arrival < MAX_TICKS && Indexes(sc, P, idx, P[i].arrival)
    ensures Simulated(sc, P, P[i].arrival) && P[i].pid in idx(After(sc, P, P[i].arrival).value)
  {
    var t := P[i].arrival;
    NotOverYet(sc, P, t, i);
    Ledger(sc, P, t);
    var s := After(sc, P, t).value;
    PlayedSame(P, s.timeline, t, s.procs);
    ArrivingHas(s.procs, t, i, |P|);
  }

  lemma IndexedHasArrived<S>(sc: Scheduler<S>, P: Table, idx: Sim<S> -> seq<int>, t: nat, x: int)
    requires Fresh(P) && EarlyPidsFit(P) && t < MAX_TICKS && Indexes(sc, P, idx, t) && x in idx(After(sc, P, t).value)
    ensures 0 <= x <= MAX_PROCESSES
  {
    Ledger(sc, P, t);
    var s := After(sc, P, t).value;
    PlayedSame(P, s.timeline, t, s.procs);
    InReady(s.procs, t, x);
  }

  /** The indexes of a run fit exactly when the pids of all processes that arrive in time do. */
  lemma FitIff<S>(sc: Scheduler<S>, P: Table, idx: Sim<S> -> seq<int>)
    requires Fresh(P) && forall t: nat :: Indexes(sc, P, idx, t)
    ensures IndexesFit(sc, P, idx) <==> EarlyPidsFit(P)
    ensures Run(sc, P).Some? ==> (IndexesFit(sc, P, idx) <==> PidsFit(P))
  {
    forall i | 0 <= i < |P| && P[i].arrival < MAX_TICKS
      ensures IndexesFit(sc, P, idx) ==> 0 <= P[i].pid <= MAX_PROCESSES
    {
      assert Indexes(sc, P, idx, P[i].arrival);
      ArrivalIsIndexed(sc, P, idx, i);
    }
    if EarlyPidsFit(P) {
      forall t: nat, x | Simulated(sc, P, t) && x in idx(After(sc, P, t).value)
        ensures 0 <= x <= MAX_PROCESSES
      {
        assert Indexes(sc, P, idx, t);
        IndexedHasArrived(sc, P, idx, t, x);
      }
    }
    if Run(sc, P).Some? { EverybodyArrives(sc, P); }
  }

  /** In an accepted run everybody arrives before the cap. */
  lemma EverybodyArrives<S>(sc: Scheduler<S>, P: Table)
    requires Fresh(P) && Run(sc, P).Some?
    ensures forall i :: 0 <= i < |P| ==> P[i].arrival < MAX_TICKS
  {
    AcceptedRun(sc, P);
    var tl := Run(sc, P).value.timeline;
    forall i | 0 <= i < |P| ensures P[i].arrival < MAX_TICKS { Books(P, tl, i, |tl|); }
  }

  // ---------- MLFQ ----------

  /** The pids whose level the callbacks of one tick record: the arrivals; everybody a boost
      queues; a process displaced by a higher level; one whose slice runs out. */
  function MlfqIndexes(s: Sim<State>): seq<int> {
    var ps, t := s.procs, |s.timeline|;
    var a := Mlfq.Admitted(s.st, ps, t);
    var c := if Mlfq.IsBoostTick(t) then Mlfq.Boost(a, ps, t) else a;
    var b := Mlfq.Select(c).0;
    Arriving(ps, t)
    + (if Mlfq.IsBoostTick(t) then Mlfq.Others(ps, t, a.running, |ps|) + OnCpu(a.running) else [])
    + (if c.running != IDLE && 0 <= Highest(c.m) < c.level then [c.running] else [])
    + (if b.running != IDLE && !Finishes(ps, b.running) && b.left <= 1 then [b.running] else [])
  }

  ghost function MlfqF(): Sim<State> -> seq<int> { (s: Sim<State>) => MlfqIndexes(s) }

  lemma RunnableIsReady(ps: Table, t: nat, x: int)
    requires MidRun(ps, t) && (x == IDLE || Runnable(ps, x, t))
    ensures x != IDLE ==> x in Ready(ps, t)
  {
    if x != IDLE { InReady(ps, t, x); }
  }

  lemma ArrivingAreReady(ps: Table, t: nat)
    requires MidRun(ps, t)
    ensures forall x :: x in Arriving(ps, t) ==> x in Ready(ps, t)
  {
    ReadySplit(ps, t, |ps|);
  }

  lemma OthersAreReady(ps: Table, t: nat, running: int)
    requires MidRun(ps, t)
    ensures forall x :: x in Mlfq.Others(ps, t, running, |ps|) ==> x in Ready(ps, t)
  {
    Mlfq.OthersAre(ps, t, running, |ps|);
    forall x | x in Mlfq.Others(ps, t, running, |ps|)
      ensures x in Ready(ps, t)
    {
      assert x in multiset(Mlfq.Others(ps, t, running, |ps|)) && x in multiset(Ready(ps, t));
    }
  }

  lemma MlfqIndexed(P: Table, t: nat)
    requires Fresh(P)
    ensures Indexes(Mlfq.MlfqScheduler(), P, MlfqF(), t)
  {
    var s, b, s' := Mlfq.OneTick(P, t);
    MlfqIndexedOnTick(s, Mlfq.Admitted(s.st, s.procs, t), b, t);
  }

  lemma MlfqIndexedOnTick(s: Sim<State>, a: State, b: State, t: nat)
    requires |s.timeline| == t && MidRun(s.procs, t) && a == Mlfq.Admitted(s.st, s.procs, t)
             && Lists(Held(a), s.procs, t)
    requires b == Mlfq.PickNext(a, s.procs, t).0 && (b.running == IDLE || Runnable(s.procs, b.running, t))
    ensures forall x :: x in Arriving(s.procs, t) ==> x in MlfqIndexes(s)
    ensures forall x :: x in MlfqIndexes(s) ==> x in Ready(s.procs, t)
  {
    if a.running != IDLE { ListsHead(Held(a), s.procs, t); }
    RunnableIsReady(s.procs, t, a.running);
    RunnableIsReady(s.procs, t, b.running);
    ArrivingAreReady(s.procs, t);
    OthersAreReady(s.procs, t, a.running);
  }

  /** MLFQ's indexes all fit exactly when every pid that arrives in time is at most 64. */
  lemma MlfqFitsIff(P: Table)
    requires Fresh(P)
    ensures IndexesFit(Mlfq.MlfqScheduler(), P, MlfqF()) <==> EarlyPidsFit(P)
    ensures Run(Mlfq.MlfqScheduler(), P).Some? ==>
              (IndexesFit(Mlfq.MlfqScheduler(), P, MlfqF()) <==> PidsFit(P))
  {
    forall t: nat ensures Indexes(Mlfq.MlfqScheduler(), P, MlfqF(), t) { MlfqIndexed(P, t); }
    FitIff(Mlfq.MlfqScheduler(), P, MlfqF());
  }

  // ---------- CFS ----------

  /** The pids whose virtual runtime the callbacks of one tick may read or write: the arrivals,
      and everybody that the scans of `on_arrival` and `pick_next` compare. */
  function CfsIndexes(s: Sim<Cfs.State>): seq<int> {
    Arriving(s.procs, |s.timeline|) + Ready(s.procs, |s.timeline|)
  }

  ghost function CfsF(): Sim<Cfs.State> -> seq<int> { (s: Sim<Cfs.State>) => CfsIndexes(s) }

  lemma CfsIndexed(P: Table, t: nat)
    requires Fresh(P)
    ensures Indexes(Cfs.CfsScheduler(), P, CfsF(), t)
  {
    var s := Cfs.StateAt(P, t);
    ArrivingAreReady(s.procs, t);
  }

  /** CFS's indexes all fit under the same condition. */
  lemma CfsFitsIff(P: Table)
    requires Fresh(P)
    ensures IndexesFit(Cfs.CfsScheduler(), P, CfsF()) <==> EarlyPidsFit(P)
    ensures Run(Cfs.CfsScheduler(), P).Some? ==> (IndexesFit(Cfs.CfsScheduler(), P, CfsF()) <==> PidsFit(P))
  {
    forall t: nat ensures Indexes(Cfs.CfsScheduler(), P, CfsF(), t) { CfsIndexed(P, t); }
    FitIff(Cfs.CfsScheduler(), P, CfsF());
  }

  // ---------- A table that overruns the arrays ----------

  /** Pid 1 from tick 0 and pid 65 from tick 1. */
  const PID_65: Table := [Process(1, 0, 2, 0, 0, 0, 2, -1, -1), Process(65, 1, 1, 0, 0, 0, 1, -1, -1)]

  /** The loader takes the table and FCFS runs it, while MLFQ and CFS both index slot 65, one
      past the end of their arrays, on tick 1. */
  lemma Pid65Overruns()
    ensures Loaded(PID_65) && !PidsFit(PID_65) && Run(Fcfs.FcfsScheduler(), PID_65).Some?
    ensures Simulated(Mlfq.MlfqScheduler(), PID_65, 1)
    ensures 65 in MlfqIndexes(After(Mlfq.MlfqScheduler(), PID_65, 1).value)
    ensures Simulated(Cfs.CfsScheduler(), PID_65, 1)
    ensures 65 in CfsIndexes(After(Cfs.CfsScheduler(), PID_65, 1).value)
  {
    var P := PID_65;
    assert P[1].pid == 65;
    Fcfs.Conserves(P);
    FinishAtMost(P, 0, 0);
    Outcome(Fcfs.FcfsScheduler(), P);
    MlfqIndexed(P, 1);
    ArrivalIsIndexed(Mlfq.MlfqScheduler(), P, MlfqF(), 1);
    CfsIndexed(P, 1);
    ArrivalIsIndexed(Cfs.CfsScheduler(), P, CfsF(), 1);
  }
}
