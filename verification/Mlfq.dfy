/** Multi-level feedback queue: `src/sched/mlfq.c`.

    Everybody starts on the top level, goes down one on using up a slice, and is brought back
    to the top by the boost of every fiftieth tick. */
module Mlfq {
  import opened Processes
  import opened Engine
  import opened Timelines
  import opened WorkConservation
  import opened ReadyLists
  import opened MultiQueue

  const LEVEL_QUANTUM: Levels<int> := Levels(2, 4, 8)
  const BOOST_INTERVAL := 50

  predicate IsBoostTick(tick: int) { tick > 0 && tick % BOOST_INTERVAL == 0 }

  /** The ready pids other than `running`, in table order. */
  function Others(ps: Table, tick: int, running: int, k: nat): seq<int>
    requires k <= |ps|
  {
    if k == 0 then []
    else if Active(ps[k - 1], tick) && ps[k - 1].pid != running then Others(ps, tick, running, k - 1) + [ps[k - 1].pid]
    else Others(ps, tick, running, k - 1)
  }

  /** Everyone unfinished to the top level with a fresh slice, the running process first. */
  function Boost(s: State, ps: Table, tick: int): State {
    var m := Queues(Levels(Others(ps, tick, s.running, |ps|), [], []), Levels(0, 0, 0));
    if s.running == IDLE then s.(m := m)
    else State(PushHead(m, 0, s.running, LEVEL_QUANTUM.l0), IDLE, -1, 0)
  }

  function OnArrival(s: State, p: Process): State {
    s.(m := PushTail(s.m, 0, p.pid))
  }

  /** The choice once any boost has been made. */
  function Select(s: State): (State, int) {
    if s.running == IDLE then TakeHighest(s, LEVEL_QUANTUM)
    else if 0 <= Highest(s.m) < s.level then TakeHighest(PutBack(s), LEVEL_QUANTUM)
    else if s.left > 0 then (s, s.running)
    else TakeHighest(s, LEVEL_QUANTUM)
  }

  function PickNext(s: State, ps: Table, tick: int): (State, int) {
    Select(if IsBoostTick(tick) then Boost(s, ps, tick) else s)
  }

  function Below(level: int): int { if level + 1 < NLEVELS then level + 1 else level }

  function OnTickEnd(s: State, runningPid: int): State {
    if runningPid == IDLE || s.running == IDLE then s
    else if s.left - 1 <= 0 then State(PushTail(s.m, Below(s.level), s.running), IDLE, s.level, s.left - 1)
    else s.(left := s.left - 1)
  }

  function MlfqScheduler(): Scheduler<State> {
    Scheduler(
      _ => INIT,
      (s, _, p, _) => OnArrival(s, p),
      (s, ps, _, tick) => PickNext(s, ps, tick),
      (s, _, runningPid, _) => OnTickEnd(s, runningPid),
      (s, _, _, _) => OnComplete(s))
  }

  /** Besides the shared invariants: nobody is ever preempted from the top level. */
  ghost predicate Inv(s: State, ps: Table, tick: int) {
    SliceOk(s, LEVEL_QUANTUM) && s.m.saved.l0 == 0 && Lists(Held(s), ps, tick - 1)
  }

  ghost function InvF(): (State, Table, int) -> bool { (s, ps, tick) => Inv(s, ps, tick) }

  /** Every arrival enters the top level. */
  lemma {:induction false} Admits(s: State, ps: Table, tick: int, k: nat)
    requires k <= |ps|
    ensures Admit(MlfqScheduler(), s, ps, tick, k)
         == s.(m := s.m.(q := s.m.q.(l0 := s.m.q.l0 + ArrivingPids(ps, tick, k))))
  {
    var l0 := s.m.q.l0;
    if k == 0 {
      assert l0 + [] == l0;
    } else {
      Admits(s, ps, tick, k - 1);
      assert l0 + (ArrivingPids(ps, tick, k - 1) + [ps[k - 1].pid])
             == l0 + ArrivingPids(ps, tick, k - 1) + [ps[k - 1].pid];
    }
  }

  lemma AdmitKeeps(s: State, ps: Table, tick: nat) returns (a: State)
    requires MidRun(ps, tick) && Inv(s, ps, tick)
    ensures a == Admit(MlfqScheduler(), s, ps, tick, |ps|)
    ensures a == s.(m := s.m.(q := s.m.q.(l0 := s.m.q.l0 + Arriving(ps, tick))))
    ensures SliceOk(a, LEVEL_QUANTUM) && a.m.saved.l0 == 0 && Lists(Held(a), ps, tick)
  {
    Admits(s, ps, tick, |ps|);
    a := s.(m := s.m.(q := s.m.q.(l0 := s.m.q.l0 + Arriving(ps, tick))));
    ListsArrivals(Held(s), ps, tick);
    assert multiset(Held(a)) == multiset(Held(s) + Arriving(ps, tick));
  }

  /** The rebuilt top level is the ready list without the running process. */
  lemma {:induction false} OthersAre(ps: Table, tick: int, running: int, k: nat)
    requires Sorted(ps) && k <= |ps|
    ensures multiset(ReadyPids(ps, tick, k))
         == multiset(Others(ps, tick, running, k))
            + (if running in ReadyPids(ps, tick, k) then multiset{running} else multiset{})
    ensures |Others(ps, tick, running, k)| <= k
  {
    if k > 0 {
      OthersAre(ps, tick, running, k - 1);
      if ps[k - 1].pid == running && running in ReadyPids(ps, tick, k - 1) {
        InReadyPids(ps, tick, k - 1, running);
        assert false;
      }
    }
  }

  lemma BoostHeld(s: State, ps: Table, tick: int)
    ensures Held(Boost(s, ps, tick)) == OnCpu(s.running) + Others(ps, tick, s.running, |ps|)
  {
  }

  /** A boost drops nobody and adds nobody. */
  lemma BoostHolds(s: State, ps: Table, tick: nat)
    requires MidRun(ps, tick) && Lists(Held(s), ps, tick)
    ensures Lists(Held(Boost(s, ps, tick)), ps, tick)
  {
    var rest := Others(ps, tick, s.running, |ps|);
    OthersAre(ps, tick, s.running, |ps|);
    InReady(ps, tick, s.running);
    if s.running != IDLE { ListsHead(Held(s), ps, tick); }
    BoostHeld(s, ps, tick);
  }

  lemma BoostKeeps(s: State, ps: Table, tick: nat)
    requires MidRun(ps, tick) && SliceOk(s, LEVEL_QUANTUM) && Lists(Held(s), ps, tick)
    ensures SliceOk(Boost(s, ps, tick), LEVEL_QUANTUM) && Lists(Held(Boost(s, ps, tick)), ps, tick)
  {
    BoostHolds(s, ps, tick);
    if s.running != IDLE { ListsHead(Held(s), ps, tick); }
  }

  lemma SelectTopFresh(s: State)
    requires SliceOk(s, LEVEL_QUANTUM) && (s.m.saved.l0 == 0 || s.running == IDLE)
    ensures Select(s).0.m.saved.l0 == 0
  {
  }

  lemma SelectKeeps(s: State, ps: Table, tick: nat)
    requires MidRun(ps, tick) && SliceOk(s, LEVEL_QUANTUM) && Lists(Held(s), ps, tick)
    requires s.m.saved.l0 == 0 || s.running == IDLE
    ensures var (s', next) := Select(s); PickedWell(s', next, LEVEL_QUANTUM, ps, tick) && s'.m.saved.l0 == 0
  {
    SelectTopFresh(s);
    SelectPicks(s, ps, tick);
  }

  lemma SelectPicks(s: State, ps: Table, tick: nat)
    requires MidRun(ps, tick) && SliceOk(s, LEVEL_QUANTUM) && Lists(Held(s), ps, tick)
    ensures var (s', next) := Select(s); PickedWell(s', next, LEVEL_QUANTUM, ps, tick)
  {
    if s.running == IDLE {
      TakeKeeps(s, LEVEL_QUANTUM, ps, tick);
    } else if 0 <= Highest(s.m) < s.level {
      PreemptKeeps(s, LEVEL_QUANTUM, ps, tick);
    } else {
      KeepsRunning(s, LEVEL_QUANTUM, ps, tick);
    }
  }

  lemma PickKeeps(s: State, ps: Table, tick: nat)
    requires MidRun(ps, tick) && SliceOk(s, LEVEL_QUANTUM) && Lists(Held(s), ps, tick) && s.m.saved.l0 == 0
    ensures var (s', next) := PickNext(s, ps, tick);
            PickedWell(s', next, LEVEL_QUANTUM, ps, tick) && s'.m.saved.l0 == 0
  {
    if IsBoostTick(tick) {
      BoostKeeps(s, ps, tick);
      SelectKeeps(Boost(s, ps, tick), ps, tick);
    } else {
      SelectKeeps(s, ps, tick);
    }
  }

  lemma SettleKeeps(s: State, ps: Table, tick: nat)
    requires MidRun(ps, tick) && s.running != IDLE && PickedWell(s, s.running, LEVEL_QUANTUM, ps, tick)
    requires s.m.saved.l0 == 0
    ensures Settle(MlfqScheduler(), s, ps, s.running, tick)
         == if Finishes(ps, s.running) then OnComplete(s) else OnTickEnd(s, s.running)
    ensures Inv(Settle(MlfqScheduler(), s, ps, s.running, tick), Execute(ps, s.running, tick), tick + 1)
  {
    var s' := if Finishes(ps, s.running) then OnComplete(s) else OnTickEnd(s, s.running);
    assert Settle(MlfqScheduler(), s, ps, s.running, tick) == s';
    SettledSlices(s, Finishes(ps, s.running));
    assert Held(s) == [s.running] + All(s.m);
    ListsExecute(Held(s'), ps, s.running, tick);
  }

  lemma SettledSlices(s: State, finished: bool)
    requires s.running != IDLE && SliceOk(s, LEVEL_QUANTUM)
    ensures var s' := if finished then OnComplete(s) else OnTickEnd(s, s.running);
            && SliceOk(s', LEVEL_QUANTUM)
            && multiset(Held(s')) == multiset(if finished then All(s.m) else Held(s))
  {
    var lv := Below(s.level);
    PushTailAll(s.m, lv, s.running);
    PushTailSaved(s.m, LEVEL_QUANTUM, lv, s.running);
    assert Held(s) == [s.running] + All(s.m);
    assert OnTickEnd(s, s.running).running == IDLE ==>
           Held(OnTickEnd(s, s.running)) == All(PushTail(s.m, lv, s.running));
  }

  lemma Tick(s: State, ps: Table, cur: int, tick: nat)
    requires MidRun(ps, tick) && Inv(s, ps, tick)
    ensures GoodTick(MlfqScheduler(), InvF(), s, ps, cur, tick)
  {
    var a := AdmitKeeps(s, ps, tick);
    PickKeeps(a, ps, tick);
    var (b, next) := PickNext(a, ps, tick);
    if next != IDLE { SettleKeeps(b, ps, tick); }
  }

  /** As functions of the table the callbacks never fail, whatever the pids. */
  lemma NeverFails(P: Table)
    requires Fresh(P)
    ensures WorkConservingOn(MlfqScheduler(), P)
    ensures forall t: nat :: HoldsAt(MlfqScheduler(), P, InvF(), t)
  {
    ListsAtStart(P);
    forall s, ps, cur, tick: nat | MidRun(ps, tick) && InvF()(s, ps, tick)
      ensures GoodTick(MlfqScheduler(), InvF(), s, ps, cur, tick)
    {
      Tick(s, ps, cur, tick);
    }
    WorkConservingByInvariant(MlfqScheduler(), P, InvF());
  }

  /** On a table that fits the pid-indexed array the scheduler is work-conserving. */
  lemma Conserves(P: Table)
    requires Indexable(P)
    ensures WorkConservingOn(MlfqScheduler(), P)
    ensures forall t: nat :: HoldsAt(MlfqScheduler(), P, InvF(), t)
  {
    NeverFails(P);
  }

  /** The rebuilt top level, when the running process heads the ready list or nobody runs. */
  lemma {:induction false} OthersInOrder(ps: Table, tick: int, running: int, k: nat)
    requires Sorted(ps) && k <= |ps|
    ensures var l := ReadyPids(ps, tick, k);
            && (running !in l ==> Others(ps, tick, running, k) == l)
            && (l != [] && l[0] == running ==> Others(ps, tick, running, k) == l[1..])
  {
    if k > 0 {
      OthersInOrder(ps, tick, running, k - 1);
      InReadyPids(ps, tick, k - 1, ps[k - 1].pid);
      var l := ReadyPids(ps, tick, k - 1);
      if l != [] { assert (l + [ps[k - 1].pid])[1..] == l[1..] + [ps[k - 1].pid]; }
    }
  }

  /** The documented boost order, arrival and then pid, is the code's exactly when nobody is
      running or the running process comes first in it anyway. */
  lemma BoostOrderIff(s: State, ps: Table, tick: nat)
    requires MidRun(ps, tick) && Lists(Held(s), ps, tick)
    ensures Boost(s, ps, tick).m.q.l0 == Ready(ps, tick)
       <==> s.running == IDLE || (Ready(ps, tick) != [] && Ready(ps, tick)[0] == s.running)
  {
    var l := Ready(ps, tick);
    OthersInOrder(ps, tick, s.running, |ps|);
    if s.running == IDLE {
      InReady(ps, tick, IDLE);
    } else {
      if l != [] { assert l == [l[0]] + l[1..]; }
      assert Boost(s, ps, tick).m.q.l0 == [s.running] + Others(ps, tick, s.running, |ps|);
    }
  }

  /** The state after this tick's arrivals. */
  function Admitted(s: State, ps: Table, tick: int): State {
    s.(m := s.m.(q := s.m.q.(l0 := s.m.q.l0 + Arriving(ps, tick))))
  }

  /** The boost comes after this tick's admissions in the code and before them in the
      documentation; the states are the same. */
  lemma BoostAndAdmissionCommute(s: State, ps: Table, tick: nat)
    requires MidRun(ps, tick) && Lists(Held(s), ps, tick - 1)
    ensures Boost(Admitted(s, ps, tick), ps, tick) == Admitted(Boost(s, ps, tick - 1), ps, tick)
  {
    if s.running != IDLE { ListsIff(Held(s), ps, tick - 1, s.running); }
    OthersSplit(ps, tick, s.running, |ps|);
    var earlier, later := Others(ps, tick - 1, s.running, |ps|), Arriving(ps, tick);
    assert [s.running] + (earlier + later) == [s.running] + earlier + later;
  }

  /** The ready processes of this tick are those of the last and then the arrivals. */
  lemma {:induction false} OthersSplit(ps: Table, tick: int, running: int, k: nat)
    requires MidRun(ps, tick) && k <= |ps|
    requires running == IDLE || (IndexOf(ps, running) >= 0 && ps[IndexOf(ps, running)].arrival < tick)
    ensures Others(ps, tick, running, k) == Others(ps, tick - 1, running, k) + ArrivingPids(ps, tick, k)
  {
    if k > 0 {
      OthersSplit(ps, tick, running, k - 1);
      IndexOfOwn(ps, k - 1);
      if ps[k - 1].arrival < tick { NoneArriving(ps, tick, k - 1); }
    }
  }

  /** The state once the process picked in `b` has executed. */
  function Settled(b: State, ps: Table): State {
    if Finishes(ps, b.running) then OnComplete(b) else OnTickEnd(b, b.running)
  }

  lemma StateAt(P: Table, t: nat) returns (s: Sim<State>)
    requires Fresh(P)
    ensures After(MlfqScheduler(), P, t) == Some(s) && |s.timeline| == t
    ensures SameProcesses(P, s.procs) && MidRun(s.procs, t) && Inv(s.st, s.procs, t)
  {
    NeverFails(P);
    assert HoldsAt(MlfqScheduler(), P, InvF(), t);
    s := After(MlfqScheduler(), P, t).value;
    Ledger(MlfqScheduler(), P, t);
    PlayedSame(P, s.timeline, t, s.procs);
  }

  lemma TickIs(s: Sim<State>, s': Sim<State>, t: nat) returns (b: State)
    requires Step(MlfqScheduler(), s) == Some(s') && |s.timeline| == t && MidRun(s.procs, t) && Inv(s.st, s.procs, t)
    ensures var a := Admitted(s.st, s.procs, t);
            && SliceOk(a, LEVEL_QUANTUM) && a.m.saved.l0 == 0 && Lists(Held(a), s.procs, t)
            && b == PickNext(a, s.procs, t).0
    ensures PickedWell(b, b.running, LEVEL_QUANTUM, s.procs, t) && b.m.saved.l0 == 0
    ensures s'.procs == Execute(s.procs, b.running, t) && s'.st == Settled(b, s.procs)
    ensures s'.timeline == s.timeline + [b.running] && b == Choice(MlfqScheduler(), s).0
  {
    var a := AdmitKeeps(s.st, s.procs, t);
    b := PickNext(a, s.procs, t).0;
    PickKeeps(a, s.procs, t);
    if b.running != IDLE { SettleKeeps(b, s.procs, t); }
  }

  /** One tick of a run, taken apart. */
  lemma OneTick(P: Table, t: nat) returns (s: Sim<State>, b: State, s': Sim<State>)
    requires Fresh(P)
    ensures After(MlfqScheduler(), P, t) == Some(s) && After(MlfqScheduler(), P, t + 1) == Some(s')
    ensures SameProcesses(P, s.procs) && MidRun(s.procs, t) && Inv(s.st, s.procs, t)
    ensures var a := Admitted(s.st, s.procs, t);
            && SliceOk(a, LEVEL_QUANTUM) && a.m.saved.l0 == 0 && Lists(Held(a), s.procs, t)
            && b == PickNext(a, s.procs, t).0
    ensures PickedWell(b, b.running, LEVEL_QUANTUM, s.procs, t) && b.m.saved.l0 == 0
    ensures s'.procs == Execute(s.procs, b.running, t) && s'.st == Settled(b, s.procs)
    ensures s'.timeline == s.timeline + [b.running] && b == Choice(MlfqScheduler(), s).0
  {
    s := StateAt(P, t);
    s' := StateAt(P, t + 1);
    Stepwise(MlfqScheduler(), P, t, s, s');
    b := TickIs(s, s', t);
  }
}
