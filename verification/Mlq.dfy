/** Multi-level queue with fixed assignment: `src/sched/mlq.c`.

    A process never changes its level; one displaced from above keeps its place at the head
    and what is left of its slice. */
module Mlq {
  import opened Processes
  import opened Engine
  import opened Timelines
  import opened WorkConservation
  import opened ReadyLists
  import opened MultiQueue

  /** Round Robin with quanta 2 and 4 above a FCFS level, marked by 0. */
  const LEVEL_QUANTUM: Levels<int> := Levels(2, 4, 0)

  function OnArrival(s: State, p: Process): State {
    s.(m := PushTail(s.m, p.queue, p.pid))
  }

  function PickNext(s: State): (State, int) {
    if s.running == IDLE then TakeHighest(s, LEVEL_QUANTUM)
    else if 0 <= Highest(s.m) < s.level then TakeHighest(PutBack(s), LEVEL_QUANTUM)
    else if LEVEL_QUANTUM.At(s.level) == 0 || s.left > 0 then (s, s.running)
    else TakeHighest(s, LEVEL_QUANTUM)
  }

  function OnTickEnd(s: State, runningPid: int): State {
    if runningPid == IDLE || s.running == IDLE || LEVEL_QUANTUM.At(s.level) == 0 then s
    else if s.left - 1 <= 0 then State(PushTail(s.m, s.level, s.running), IDLE, s.level, s.left - 1)
    else s.(left := s.left - 1)
  }

  /** The state once the process picked in `b` has executed. */
  function Settled(b: State, ps: Table): State {
    if Finishes(ps, b.running) then OnComplete(b) else OnTickEnd(b, b.running)
  }

  function MlqScheduler(): Scheduler<State> {
    Scheduler(
      _ => INIT,
      (s, _, p, _) => OnArrival(s, p),
      (s, _, _, _) => PickNext(s),
      (s, _, runningPid, _) => OnTickEnd(s, runningPid),
      (s, _, _, _) => OnComplete(s))
  }

  ghost predicate Inv(s: State, ps: Table, tick: int) {
    SliceOk(s, LEVEL_QUANTUM) && Lists(Held(s), ps, tick - 1)
  }

  ghost function InvF(): (State, Table, int) -> bool { (s, ps, tick) => Inv(s, ps, tick) }

  lemma ArrivalKeeps(s: State, p: Process)
    requires SliceOk(s, LEVEL_QUANTUM)
    ensures SliceOk(OnArrival(s, p), LEVEL_QUANTUM)
    ensures multiset(Held(OnArrival(s, p))) == multiset(Held(s) + [p.pid])
  {
    HeldPushTail(s, p.queue, p.pid);
  }

  /** Admission adds the arrivals to those held, and leaves the slices sound. */
  lemma {:induction false} Admits(s: State, ps: Table, tick: int, k: nat)
    requires k <= |ps| && SliceOk(s, LEVEL_QUANTUM)
    ensures var a := Admit(MlqScheduler(), s, ps, tick, k);
            SliceOk(a, LEVEL_QUANTUM) && multiset(Held(a)) == multiset(Held(s) + ArrivingPids(ps, tick, k))
  {
    if k == 0 {
      assert Held(s) + [] == Held(s);
    } else {
      Admits(s, ps, tick, k - 1);
      if ps[k - 1].arrival == tick {
        ArrivalKeeps(Admit(MlqScheduler(), s, ps, tick, k - 1), ps[k - 1]);
        assert Held(s) + ArrivingPids(ps, tick, k) == Held(s) + ArrivingPids(ps, tick, k - 1) + [ps[k - 1].pid];
      }
    }
  }

  lemma AdmitKeeps(s: State, ps: Table, tick: nat) returns (a: State)
    requires MidRun(ps, tick) && Inv(s, ps, tick)
    ensures a == Admit(MlqScheduler(), s, ps, tick, |ps|)
    ensures SliceOk(a, LEVEL_QUANTUM) && Lists(Held(a), ps, tick)
  {
    Admits(s, ps, tick, |ps|);
    ListsArrivals(Held(s), ps, tick);
    a := Admit(MlqScheduler(), s, ps, tick, |ps|);
  }

  lemma PickKeeps(s: State, ps: Table, tick: nat)
    requires MidRun(ps, tick) && SliceOk(s, LEVEL_QUANTUM) && Lists(Held(s), ps, tick)
    ensures var (s', next) := PickNext(s); PickedWell(s', next, LEVEL_QUANTUM, ps, tick)
  {
    if s.running == IDLE {
      TakeKeeps(s, LEVEL_QUANTUM, ps, tick);
    } else if 0 <= Highest(s.m) < s.level {
      PreemptKeeps(s, LEVEL_QUANTUM, ps, tick);
    } else {
      GoesOn(s);
      KeepsRunning(s, LEVEL_QUANTUM, ps, tick);
    }
  }

  /** Nobody higher: the running process goes on. */
  lemma GoesOn(s: State)
    requires s.running != IDLE && SliceOk(s, LEVEL_QUANTUM) && !(0 <= Highest(s.m) < s.level)
    ensures PickNext(s) == (s, s.running)
  {
  }

  lemma SettleKeeps(s: State, ps: Table, tick: nat)
    requires MidRun(ps, tick) && s.running != IDLE && PickedWell(s, s.running, LEVEL_QUANTUM, ps, tick)
    ensures Settle(MlqScheduler(), s, ps, s.running, tick) == Settled(s, ps)
    ensures Inv(Settle(MlqScheduler(), s, ps, s.running, tick), Execute(ps, s.running, tick), tick + 1)
  {
    var s' := Settled(s, ps);
    assert Settle(MlqScheduler(), s, ps, s.running, tick) == s';
    SettledSlices(s, Finishes(ps, s.running));
    assert Held(s) == [s.running] + All(s.m);
    ListsExecute(Held(s'), ps, s.running, tick);
  }

  lemma SettledSlices(s: State, finished: bool)
    requires s.running != IDLE && SliceOk(s, LEVEL_QUANTUM)
    ensures var s' := if finished then OnComplete(s) else OnTickEnd(s, s.running);
            && SliceOk(s', LEVEL_QUANTUM)
            && multiset(Held(s')) == multiset(if finished then All(s.m) else Held(s))
  {
    PushTailAll(s.m, s.level, s.running);
    PushTailSaved(s.m, LEVEL_QUANTUM, s.level, s.running);
    assert Held(s) == [s.running] + All(s.m);
    assert OnTickEnd(s, s.running).running == IDLE ==>
           Held(OnTickEnd(s, s.running)) == All(PushTail(s.m, s.level, s.running));
  }

  lemma Tick(s: State, ps: Table, cur: int, tick: nat)
    requires MidRun(ps, tick) && Inv(s, ps, tick)
    ensures GoodTick(MlqScheduler(), InvF(), s, ps, cur, tick)
  {
    var a := AdmitKeeps(s, ps, tick);
    PickKeeps(a, ps, tick);
    var (b, next) := PickNext(a);
    if next != IDLE { SettleKeeps(b, ps, tick); }
  }

  lemma Conserves(P: Table)
    requires Fresh(P)
    ensures WorkConservingOn(MlqScheduler(), P)
    ensures forall t: nat :: HoldsAt(MlqScheduler(), P, InvF(), t)
  {
    ListsAtStart(P);
    forall s, ps, cur, tick: nat | MidRun(ps, tick) && InvF()(s, ps, tick)
      ensures GoodTick(MlqScheduler(), InvF(), s, ps, cur, tick)
    {
      Tick(s, ps, cur, tick);
    }
    WorkConservingByInvariant(MlqScheduler(), P, InvF());
  }

  lemma StateAt(P: Table, t: nat) returns (s: Sim<State>)
    requires Fresh(P)
    ensures After(MlqScheduler(), P, t) == Some(s) && |s.timeline| == t
    ensures SameProcesses(P, s.procs) && MidRun(s.procs, t) && Inv(s.st, s.procs, t)
  {
    Conserves(P);
    assert HoldsAt(MlqScheduler(), P, InvF(), t);
    s := After(MlqScheduler(), P, t).value;
    Ledger(MlqScheduler(), P, t);
    PlayedSame(P, s.timeline, t, s.procs);
  }

  lemma TickIs(s: Sim<State>, s': Sim<State>, t: nat) returns (a: State, b: State)
    requires Step(MlqScheduler(), s) == Some(s') && |s.timeline| == t && MidRun(s.procs, t) && Inv(s.st, s.procs, t)
    ensures a == Admit(MlqScheduler(), s.st, s.procs, t, |s.procs|) && b == PickNext(a).0
    ensures SliceOk(a, LEVEL_QUANTUM) && Lists(Held(a), s.procs, t)
    ensures PickedWell(b, b.running, LEVEL_QUANTUM, s.procs, t) && b == Choice(MlqScheduler(), s).0
    ensures s'.procs == Execute(s.procs, b.running, t) && s'.st == Settled(b, s.procs)
    ensures s'.timeline == s.timeline + [b.running]
  {
    a := AdmitKeeps(s.st, s.procs, t);
    b := PickNext(a).0;
    PickKeeps(a, s.procs, t);
    if b.running != IDLE { SettleKeeps(b, s.procs, t); }
  }

  /** One tick of a run, taken apart: `a` has admitted the arrivals, `b` has picked. */
  lemma OneTick(P: Table, t: nat) returns (s: Sim<State>, a: State, b: State, s': Sim<State>)
    requires Fresh(P)
    ensures After(MlqScheduler(), P, t) == Some(s) && After(MlqScheduler(), P, t + 1) == Some(s')
    ensures SameProcesses(P, s.procs) && MidRun(s.procs, t) && Inv(s.st, s.procs, t)
    ensures a == Admit(MlqScheduler(), s.st, s.procs, t, |s.procs|) && b == PickNext(a).0
    ensures SliceOk(a, LEVEL_QUANTUM) && Lists(Held(a), s.procs, t)
    ensures PickedWell(b, b.running, LEVEL_QUANTUM, s.procs, t) && b == Choice(MlqScheduler(), s).0
    ensures s'.procs == Execute(s.procs, b.running, t) && s'.st == Settled(b, s.procs)
    ensures |s.timeline| == t && s'.timeline == s.timeline + [b.running]
  {
    s := StateAt(P, t);
    s' := StateAt(P, t + 1);
    Stepwise(MlqScheduler(), P, t, s, s');
    a, b := TickIs(s, s', t);
  }
}
