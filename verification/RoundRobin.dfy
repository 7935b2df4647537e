/** Round Robin: `src/sched/rr.c`.

    A process that arrives on the tick on which another's slice runs out is queued first: the
    engine admits arrivals before that tick ends. */
module RoundRobin {
  import opened Processes
  import opened Engine
  import opened Timelines
  import opened WorkConservation
  import opened ReadyLists

  const DEFAULT_QUANTUM := 4

  datatype State = State(queue: seq<int>, running: int, quantum: int, left: int)

  function Init(quantum: int): State {
    State([], IDLE, if quantum > 0 then quantum else DEFAULT_QUANTUM, 0)
  }

  function Push(s: State, pid: int): State { s.(queue := s.queue + [pid]) }

  function PickNext(s: State): (State, int) {
    if s.running != IDLE && s.left > 0 then (s, s.running)
    else if |s.queue| > 0 then (State(s.queue[1..], s.queue[0], s.quantum, s.quantum), s.queue[0])
    else (s.(running := IDLE), IDLE)
  }

  function OnTickEnd(s: State, runningPid: int): State {
    if runningPid == IDLE then s
    else
      var s' := s.(left := s.left - 1);
      if s'.running != IDLE && s'.left <= 0 then Push(s', s'.running).(running := IDLE) else s'
  }

  function OnComplete(s: State): State { s.(running := IDLE, left := 0) }

  function Rr(quantum: int): Scheduler<State> {
    Scheduler(
      _ => Init(quantum),
      (s, _, p: Process, _) => Push(s, p.pid),
      (s, _, _, _) => PickNext(s),
      (s, _, runningPid, _) => OnTickEnd(s, runningPid),
      (s, _, _, _) => OnComplete(s))
  }

  lemma {:induction false} Admits(q: int, s: State, ps: Table, tick: int, k: nat)
    requires k <= |ps|
    ensures Admit(Rr(q), s, ps, tick, k) == s.(queue := s.queue + ArrivingPids(ps, tick, k))
  {
    if k > 0 { Admits(q, s, ps, tick, k - 1); }
  }

  /** Everybody ready is either running or queued, once; a running process has slice left. */
  ghost predicate Inv(s: State, ps: Table, tick: int) {
    && s.quantum > 0
    && Lists(OnCpu(s.running) + s.queue, ps, tick - 1)
    && (s.running != IDLE ==> 1 <= s.left <= s.quantum)
  }

  ghost function InvF(): (State, Table, int) -> bool { (s, ps, tick) => Inv(s, ps, tick) }

  lemma PickKeeps(s: State, ps: Table, tick: nat)
    requires MidRun(ps, tick) && s.quantum > 0 && Lists(OnCpu(s.running) + s.queue, ps, tick)
    requires s.running != IDLE ==> 1 <= s.left <= s.quantum
    ensures var (s', next) := PickNext(s);
            && s'.running == next && s'.quantum == s.quantum
            && Lists(OnCpu(next) + s'.queue, ps, tick)
            && (next == IDLE ==> forall i :: 0 <= i < |ps| ==> !Active(ps[i], tick))
            && (next != IDLE ==> Runnable(ps, next, tick) && 1 <= s'.left <= s.quantum)
  {
    var (s', next) := PickNext(s);
    if s.running == IDLE {
      if s.queue == [] {
        assert OnCpu(s.running) + s.queue == [];
        ListsNobody(ps, tick);
      } else {
        ListsIff(OnCpu(s.running) + s.queue, ps, tick, s.queue[0]);
        assert s.queue[0] in OnCpu(s.running) + s.queue;
        assert OnCpu(next) + s'.queue == s.queue == OnCpu(s.running) + s.queue;
      }
    } else {
      ListsIff(OnCpu(s.running) + s.queue, ps, tick, s.running);
    }
  }

  lemma AdmitKeeps(q: int, s: State, ps: Table, tick: nat) returns (a: State)
    requires MidRun(ps, tick) && Inv(s, ps, tick)
    ensures a == Admit(Rr(q), s, ps, tick, |ps|) == s.(queue := s.queue + Arriving(ps, tick))
    ensures Lists(OnCpu(a.running) + a.queue, ps, tick)
  {
    Admits(q, s, ps, tick, |ps|);
    a := s.(queue := s.queue + Arriving(ps, tick));
    ListsArrivals(OnCpu(s.running) + s.queue, ps, tick);
    assert OnCpu(s.running) + s.queue + Arriving(ps, tick) == OnCpu(a.running) + a.queue;
  }

  lemma Tick(q: int, s: State, ps: Table, cur: int, tick: nat)
    requires MidRun(ps, tick) && Inv(s, ps, tick)
    ensures GoodTick(Rr(q), InvF(), s, ps, cur, tick)
  {
    var a := AdmitKeeps(q, s, ps, tick);
    PickKeeps(a, ps, tick);
    var (b, next) := PickNext(a);
    if next != IDLE {
      SettleKeeps(q, b, ps, tick);
    }
  }

  lemma SettleKeeps(q: int, s: State, ps: Table, tick: nat)
    requires MidRun(ps, tick) && s.quantum > 0 && s.running != IDLE && 1 <= s.left <= s.quantum
    requires Lists(OnCpu(s.running) + s.queue, ps, tick) && Runnable(ps, s.running, tick)
    ensures Inv(Settle(Rr(q), s, ps, s.running, tick), Execute(ps, s.running, tick), tick + 1)
  {
    var s' := Settle(Rr(q), s, ps, s.running, tick);
    assert multiset(s.queue + [s.running]) == multiset(OnCpu(s.running) + s.queue);
    assert OnCpu(s'.running) + s'.queue
        == if Finishes(ps, s.running) then s.queue
           else if s.left == 1 then s.queue + [s.running] else [s.running] + s.queue;
    ListsExecute(OnCpu(s'.running) + s'.queue, ps, s.running, tick);
  }

  lemma Conserves(q: int, P: Table)
    requires Fresh(P)
    ensures WorkConservingOn(Rr(q), P)
    ensures forall t: nat :: HoldsAt(Rr(q), P, InvF(), t)
  {
    ListsAtStart(P);
    forall s, ps, cur, tick: nat | MidRun(ps, tick) && InvF()(s, ps, tick)
      ensures GoodTick(Rr(q), InvF(), s, ps, cur, tick)
    {
      Tick(q, s, ps, cur, tick);
    }
    WorkConservingByInvariant(Rr(q), P, InvF());
  }

  /** The state once the process picked in `b` has executed. */
  function Settled(b: State, ps: Table): State {
    OnTickEnd(if Finishes(ps, b.running) then OnComplete(b) else b, b.running)
  }

  /** The state after this tick's arrivals. */
  function Admitted(s: State, ps: Table, tick: int): State {
    s.(queue := s.queue + Arriving(ps, tick))
  }

  /** One tick of a run, taken apart: `a` has admitted the arrivals, `b` has picked. */
  lemma OneTick(q: int, P: Table, t: nat) returns (s: Sim<State>, a: State, b: State, s': Sim<State>)
    requires Fresh(P)
    ensures After(Rr(q), P, t) == Some(s) && After(Rr(q), P, t + 1) == Some(s')
    ensures |s.procs| == |P| && MidRun(s.procs, t) && PlayedTable(P, s.timeline, t, s.procs)
    ensures a == Admitted(s.st, s.procs, t) && Inv(s.st, s.procs, t)
    ensures Inv(s'.st, s'.procs, t + 1) && MidRun(s'.procs, t + 1)
    ensures Lists(OnCpu(a.running) + a.queue, s.procs, t) && b == PickNext(a).0
    ensures b.running == IDLE || Runnable(s.procs, b.running, t)
    ensures b.running == IDLE ==> forall i :: 0 <= i < |s.procs| ==> !Active(s.procs[i], t)
    ensures s'.procs == Execute(s.procs, b.running, t) && s'.st == Settled(b, s.procs)
  {
    Conserves(q, P);
    assert HoldsAt(Rr(q), P, InvF(), t) && HoldsAt(Rr(q), P, InvF(), t + 1);
    s := Unroll(Rr(q), P, t + 1);
    s' := After(Rr(q), P, t + 1).value;
    a, b := TickPicks(q, s, t);
  }

  lemma TickPicks(q: int, s: Sim<State>, t: nat) returns (a: State, b: State)
    requires |s.timeline| == t && MidRun(s.procs, t) && Inv(s.st, s.procs, t)
    ensures a == s.st.(queue := s.st.queue + Arriving(s.procs, t))
    ensures Lists(OnCpu(a.running) + a.queue, s.procs, t) && b == PickNext(a).0
    ensures b.running == IDLE || Runnable(s.procs, b.running, t)
    ensures b.running == IDLE ==> forall i :: 0 <= i < |s.procs| ==> !Active(s.procs[i], t)
    ensures Choice(Rr(q), s) == (b, b.running)
  {
    a := AdmitKeeps(q, s.st, s.procs, t);
    PickKeeps(a, s.procs, t);
    b := PickNext(a).0;
  }
}
