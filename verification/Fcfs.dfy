/** First come, first served: `src/sched/fcfs.c`.

    The array is never reused: the state keeps everyone ever enqueued and the place of the
    next to run, which only moves on. */
module Fcfs {
  import opened Processes
  import opened Engine
  import opened WorkConservation
  import opened ReadyLists

  /** The array is never reused: `queue` keeps everyone ever enqueued; `head` is the next to
      run. */
  datatype State = State(queue: seq<int>, head: nat, running: int)

  function Init(): State { State([], 0, IDLE) }

  function OnArrival(s: State, pid: int): State { s.(queue := s.queue + [pid]) }

  function PickNext(s: State): (State, int) {
    if s.running != IDLE then (s, s.running)
    else if s.head < |s.queue| then
      (s.(running := s.queue[s.head], head := s.head + 1), s.queue[s.head])
    else (s, IDLE)
  }

  function OnComplete(s: State): State { s.(running := IDLE) }

  function FcfsScheduler(): Scheduler<State> {
    Scheduler(
      _ => Init(),
      (s, _, p: Process, _) => OnArrival(s, p.pid),
      (s, _, _, _) => PickNext(s),
      (s, _, _, _) => s,
      (s, _, _, _) => OnComplete(s))
  }

  /** Whoever is still waiting, first to run first. */
  function Waiting(s: State): seq<int> {
    if s.head <= |s.queue| then s.queue[s.head..] else []
  }

  lemma {:induction false} Admits(s: State, ps: Table, tick: int, k: nat)
    requires k <= |ps|
    ensures Admit(FcfsScheduler(), s, ps, tick, k) == s.(queue := s.queue + ArrivingPids(ps, tick, k))
  {
    if k > 0 { Admits(s, ps, tick, k - 1); }
  }

  ghost predicate Inv(s: State, ps: Table, tick: int) {
    s.head <= |s.queue| && Lists(OnCpu(s.running) + Waiting(s), ps, tick - 1)
  }

  ghost function InvF(): (State, Table, int) -> bool { (s, ps, tick) => Inv(s, ps, tick) }

  lemma PickKeeps(s: State, ps: Table, tick: nat)
    requires MidRun(ps, tick) && s.head <= |s.queue| && Lists(OnCpu(s.running) + Waiting(s), ps, tick)
    ensures var (s', next) := PickNext(s);
            && s'.running == next && s'.head <= |s'.queue|
            && Lists(OnCpu(next) + Waiting(s'), ps, tick)
            && (next == IDLE ==> forall i :: 0 <= i < |ps| ==> !Active(ps[i], tick))
            && (next != IDLE ==> Runnable(ps, next, tick))
  {
    var l := OnCpu(s.running) + Waiting(s);
    if l == [] {
      ListsNobody(ps, tick);
    } else {
      ListsHead(l, ps, tick);
      PickIsHead(s);
    }
  }

  /** A pick moves the head of the list onto the CPU and changes nothing else of the list. */
  lemma PickIsHead(s: State)
    requires s.head <= |s.queue| && OnCpu(s.running) + Waiting(s) != []
    requires (OnCpu(s.running) + Waiting(s))[0] != IDLE
    ensures var (s', next) := PickNext(s);
            && next == (OnCpu(s.running) + Waiting(s))[0] == s'.running
            && s'.head <= |s'.queue|
            && OnCpu(next) + Waiting(s') == OnCpu(s.running) + Waiting(s)
  {
  }

  lemma SettleKeeps(s: State, ps: Table, tick: nat)
    requires MidRun(ps, tick) && s.head <= |s.queue| && s.running != IDLE
    requires Lists(OnCpu(s.running) + Waiting(s), ps, tick) && Runnable(ps, s.running, tick)
    ensures Inv(Settle(FcfsScheduler(), s, ps, s.running, tick), Execute(ps, s.running, tick), tick + 1)
  {
    var s' := Settle(FcfsScheduler(), s, ps, s.running, tick);
    assert Finishes(ps, s.running) ==> OnCpu(s'.running) + Waiting(s') == Waiting(s);
    ListsExecute(OnCpu(s'.running) + Waiting(s'), ps, s.running, tick);
  }

  lemma AdmitKeeps(s: State, ps: Table, tick: nat) returns (a: State)
    requires MidRun(ps, tick) && Inv(s, ps, tick)
    ensures a == Admit(FcfsScheduler(), s, ps, tick, |ps|)
    ensures a == s.(queue := s.queue + Arriving(ps, tick)) && Waiting(a) == Waiting(s) + Arriving(ps, tick)
    ensures Lists(OnCpu(a.running) + Waiting(a), ps, tick)
  {
    Admits(s, ps, tick, |ps|);
    a := s.(queue := s.queue + Arriving(ps, tick));
    ListsArrivals(OnCpu(s.running) + Waiting(s), ps, tick);
    assert OnCpu(s.running) + Waiting(s) + Arriving(ps, tick) == OnCpu(a.running) + Waiting(a);
  }

  lemma Tick(s: State, ps: Table, cur: int, tick: nat)
    requires MidRun(ps, tick) && Inv(s, ps, tick)
    ensures GoodTick(FcfsScheduler(), InvF(), s, ps, cur, tick)
  {
    var a := AdmitKeeps(s, ps, tick);
    PickKeeps(a, ps, tick);
    var (b, next) := PickNext(a);
    if next != IDLE { SettleKeeps(b, ps, tick); }
  }

  lemma Conserves(P: Table)
    requires Fresh(P)
    ensures WorkConservingOn(FcfsScheduler(), P)
    ensures forall t: nat :: HoldsAt(FcfsScheduler(), P, InvF(), t)
  {
    ListsAtStart(P);
    forall s, ps, cur, tick: nat | MidRun(ps, tick) && InvF()(s, ps, tick)
      ensures GoodTick(FcfsScheduler(), InvF(), s, ps, cur, tick)
    {
      Tick(s, ps, cur, tick);
    }
    WorkConservingByInvariant(FcfsScheduler(), P, InvF());
  }
}
