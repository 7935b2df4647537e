/** Simplified Completely Fair Scheduler: `src/sched/cfs.c`.

    No queues: each process has a virtual runtime that grows as it runs, more slowly the
    lower its nice value, and the least one runs. */
module Cfs {
  import opened Processes
  import opened Engine
  import opened Timelines
  import opened WorkConservation
  import opened Selection

  const NICE_0_LOAD := 1024
  const NICE_MIN := -5

  const WEIGHT: seq<int> := [3121, 2501, 1991, 1586, 1277, 1024, 820, 655, 526, 423, 335]

  /** `vr` is indexed by pid, 0 to `MAX_PROCESSES`. */
  datatype State = State(vr: seq<int>, running: int)

  function WeightOf(nice: int): (w: int)
    ensures 335 <= w <= 3121
    ensures nice <= -5 ==> w == 3121
    ensures nice == -4 ==> w == 2501
    ensures nice == -3 ==> w == 1991
    ensures nice == -2 ==> w == 1586
    ensures nice == -1 ==> w == 1277
    ensures nice == 0 ==> w == 1024
    ensures nice == 1 ==> w == 820
    ensures nice == 2 ==> w == 655
    ensures nice == 3 ==> w == 526
    ensures nice == 4 ==> w == 423
    ensures nice >= 5 ==> w == 335
  {
    var idx := nice - NICE_MIN;
    WEIGHT[if idx < 0 then 0 else if idx > 10 then 10 else idx]
  }

  /** What one tick adds to a process's virtual runtime: a truncating division. It cannot tell
      the nice values from 0 to 3 apart, nor the negative ones. */
  function Increment(nice: int): (d: int)
    ensures 0 <= d <= 3
    ensures d == 0 <==> nice < 0
    ensures d == 1 <==> 0 <= nice <= 3
    ensures d == 2 <==> nice == 4
    ensures d == 3 <==> nice >= 5
  {
    NICE_0_LOAD / WeightOf(nice)
  }

  function Init(): State { State(seq(MAX_PROCESSES + 1, _ => 0), IDLE) }

  function SetVruntime(vr: seq<int>, pid: int, v: int): (r: seq<int>)
    ensures |r| == |vr|
  {
    if 0 <= pid < |vr| then vr[pid := v] else vr
  }

  /** The least virtual runtime among the active processes other than `pid`. */
  function MinOther(vr: seq<int>, ps: Table, pid: int, tick: int, k: nat): (r: Option<int>)
    requires k <= |ps|
    ensures forall i :: 0 <= i < k && ps[i].pid != pid && Active(ps[i], tick) ==>
            r.Some? && r.value <= Vruntime(vr, ps[i].pid)
  {
    if k == 0 then None
    else
      var r := MinOther(vr, ps, pid, tick, k - 1);
      var q := ps[k - 1];
      if q.pid == pid || !Active(q, tick) then r
      else if r.None? || Vruntime(vr, q.pid) < r.value then Some(Vruntime(vr, q.pid))
      else r
  }

  lemma {:induction false} MinOtherIsSomebodys(vr: seq<int>, ps: Table, pid: int, tick: int, k: nat) returns (i: nat)
    requires k <= |ps| && MinOther(vr, ps, pid, tick, k).Some?
    ensures i < k && ps[i].pid != pid && Active(ps[i], tick)
            && Vruntime(vr, ps[i].pid) == MinOther(vr, ps, pid, tick, k).value
  {
    if MinOther(vr, ps, pid, tick, k) == MinOther(vr, ps, pid, tick, k - 1) {
      i := MinOtherIsSomebodys(vr, ps, pid, tick, k - 1);
    } else {
      i := k - 1;
    }
  }

  function OnArrival(s: State, ps: Table, p: Process, tick: int): State {
    var min := MinOther(s.vr, ps, p.pid, tick, |ps|);
    s.(vr := SetVruntime(s.vr, p.pid, if min.Some? then min.value else 0))
  }

  function PickNext(s: State, ps: Table, tick: int): (State, int) {
    var (running, next) := Reselect(ByVruntime(s.vr), s.running, ps, tick);
    (s.(running := running), next)
  }

  function OnTickEnd(s: State, ps: Table, runningPid: int): State {
    var k := IndexOf(ps, runningPid);
    if runningPid == IDLE || k < 0 then s
    else s.(vr := SetVruntime(s.vr, runningPid, Vruntime(s.vr, runningPid) + Increment(ps[k].nice)))
  }

  function OnComplete(s: State): State { s.(running := IDLE) }

  function CfsScheduler(): Scheduler<State> {
    Scheduler(
      _ => Init(),
      (s, ps, p, tick) => OnArrival(s, ps, p, tick),
      (s, ps, _, tick) => PickNext(s, ps, tick),
      (s, ps, runningPid, _) => OnTickEnd(s, ps, runningPid),
      (s, _, _, _) => OnComplete(s))
  }

  ghost function InvF(): (State, Table, int) -> bool { (s: State, ps, tick) => RunsOn(s.running, ps, tick) }

  lemma {:induction false} Admits(s: State, ps: Table, tick: int, k: nat)
    requires k <= |ps|
    ensures var a := Admit(CfsScheduler(), s, ps, tick, k); a == s.(vr := a.vr) && |a.vr| == |s.vr|
  {
    if k > 0 { Admits(s, ps, tick, k - 1); }
  }

  lemma Tick(s: State, ps: Table, cur: int, tick: nat)
    requires MidRun(ps, tick) && RunsOn(s.running, ps, tick)
    ensures GoodTick(CfsScheduler(), InvF(), s, ps, cur, tick)
  {
    Admits(s, ps, tick, |ps|);
    var a := Admit(CfsScheduler(), s, ps, tick, |ps|);
    var b := Contend(ps, tick, ByVruntime(a.vr), a.running);
    if b >= 0 {
      IndexOfOwn(ps, b);
      SettleRuns(PickNext(a, ps, tick).0, ps, ps[b].pid, tick);
    }
  }

  lemma {:induction false} SettleRuns(s: State, ps: Table, next: int, tick: nat)
    requires MidRun(ps, tick) && next != IDLE && Runnable(ps, next, tick) && s.running == next
    ensures var s' := Settle(CfsScheduler(), s, ps, next, tick); var k := IndexOf(ps, next);
            && s'.running == (if Finishes(ps, next) then IDLE else next)
            && s'.vr == SetVruntime(s.vr, next, Vruntime(s.vr, next) + Increment(ps[k].nice))
            && RunsOn(s'.running, Execute(ps, next, tick), tick + 1)
  {
    SameIndex(ps, Execute(ps, next, tick), next);
  }

  /** As functions of the table the callbacks never fail, whatever the pids. */
  lemma NeverFails(P: Table)
    requires Fresh(P)
    ensures WorkConservingOn(CfsScheduler(), P)
    ensures forall t: nat :: HoldsAt(CfsScheduler(), P, InvF(), t)
  {
    forall s, ps, cur, tick: nat | MidRun(ps, tick) && InvF()(s, ps, tick)
      ensures GoodTick(CfsScheduler(), InvF(), s, ps, cur, tick)
    {
      Tick(s, ps, cur, tick);
    }
    WorkConservingByInvariant(CfsScheduler(), P, InvF());
  }

  /** On a table that fits the pid-indexed array the scheduler is work-conserving. */
  lemma Conserves(P: Table)
    requires Indexable(P)
    ensures WorkConservingOn(CfsScheduler(), P)
    ensures forall t: nat :: HoldsAt(CfsScheduler(), P, InvF(), t)
  {
    NeverFails(P);
  }

  /** The virtual runtimes once the process in slot `b` has run for a tick. */
  function Charged(vr: seq<int>, ps: Table, b: int): seq<int>
    requires -1 <= b < |ps|
  {
    if b < 0 then vr else SetVruntime(vr, ps[b].pid, Vruntime(vr, ps[b].pid) + Increment(ps[b].nice))
  }

  /** One tick of a run, taken apart: `a` has admitted the arrivals, `b` is the slot picked. */
  lemma OneTick(P: Table, t: nat) returns (s: Sim<State>, a: State, b: int, s': Sim<State>)
    requires Fresh(P)
    ensures After(CfsScheduler(), P, t) == Some(s) && After(CfsScheduler(), P, t + 1) == Some(s')
    ensures |s.procs| == |P| && MidRun(s.procs, t) && RunsOn(s.st.running, s.procs, t)
    ensures PlayedTable(P, s.timeline, t, s.procs) && Legal(P, s'.timeline)
    ensures a == Admit(CfsScheduler(), s.st, s.procs, t, |P|) && a.running == s.st.running && |a.vr| == |s.st.vr|
    ensures b == Contend(s.procs, t, ByVruntime(a.vr), a.running) && (b >= 0 ==> Active(s.procs[b], t))
    ensures var next := PidAt(s.procs, b);
            && s'.procs == Execute(s.procs, next, t) && s'.timeline == s.timeline + [next]
            && s'.st.running == (if Finishes(s.procs, next) then IDLE else next)
            && s'.st.vr == Charged(a.vr, s.procs, b)
  {
    s, s' := TwoStates(P, t);
    a, b := TickPicks(s, t);
    TickSettles(s, a, b, s', t);
  }

  lemma TwoStates(P: Table, t: nat) returns (s: Sim<State>, s': Sim<State>)
    requires Fresh(P)
    ensures After(CfsScheduler(), P, t) == Some(s)
            && Step(CfsScheduler(), s) == Some(s') == After(CfsScheduler(), P, t + 1)
    ensures |s.procs| == |P| && |s.timeline| == t && MidRun(s.procs, t) && RunsOn(s.st.running, s.procs, t)
    ensures PlayedTable(P, s.timeline, t, s.procs) && Legal(P, s'.timeline)
  {
    s := StateAt(P, t);
    s' := StateAt(P, t + 1);
    Stepwise(CfsScheduler(), P, t, s, s');
    Lawful(P, t, s);
    Lawful(P, t + 1, s');
  }

  lemma Lawful(P: Table, t: nat, s: Sim<State>)
    requires Fresh(P) && After(CfsScheduler(), P, t) == Some(s)
    ensures PlayedTable(P, s.timeline, t, s.procs) && Legal(P, s.timeline)
  {
    Ledger(CfsScheduler(), P, t);
  }

  lemma StateAt(P: Table, t: nat) returns (s: Sim<State>)
    requires Fresh(P)
    ensures After(CfsScheduler(), P, t) == Some(s)
    ensures |s.procs| == |P| && |s.timeline| == t && MidRun(s.procs, t) && RunsOn(s.st.running, s.procs, t)
  {
    NeverFails(P);
    assert HoldsAt(CfsScheduler(), P, InvF(), t);
    s := After(CfsScheduler(), P, t).value;
  }

  lemma TickPicks(s: Sim<State>, t: nat) returns (a: State, b: int)
    requires |s.timeline| == t && MidRun(s.procs, t) && RunsOn(s.st.running, s.procs, t)
    ensures a == Admit(CfsScheduler(), s.st, s.procs, t, |s.procs|) && a.running == s.st.running && |a.vr| == |s.st.vr|
    ensures b == Contend(s.procs, t, ByVruntime(a.vr), a.running) && (b >= 0 ==> Active(s.procs[b], t))
    ensures Choice(CfsScheduler(), s) == PickNext(a, s.procs, t)
  {
    Admits(s.st, s.procs, t, |s.procs|);
    a := Admit(CfsScheduler(), s.st, s.procs, t, |s.procs|);
    b := Contend(s.procs, t, ByVruntime(a.vr), a.running);
  }

  lemma SettleCharges(picked: State, ps: Table, b: int, t: nat)
    requires MidRun(ps, t) && -1 <= b < |ps| && (b >= 0 ==> Active(ps[b], t)) && picked.running == PidAt(ps, b)
    ensures Settle(CfsScheduler(), picked, ps, PidAt(ps, b), t)
         == State(Charged(picked.vr, ps, b), if Finishes(ps, PidAt(ps, b)) then IDLE else PidAt(ps, b))
  {
    if b >= 0 {
      IndexOfOwn(ps, b);
      SettleRuns(picked, ps, ps[b].pid, t);
    }
  }

  lemma TickSettles(s: Sim<State>, a: State, b: int, s': Sim<State>, t: nat)
    requires Step(CfsScheduler(), s) == Some(s') && |s.timeline| == t && MidRun(s.procs, t)
    requires b == Contend(s.procs, t, ByVruntime(a.vr), a.running) && (b >= 0 ==> Active(s.procs[b], t))
    requires Choice(CfsScheduler(), s) == PickNext(a, s.procs, t)
    ensures var next := PidAt(s.procs, b);
            && s'.procs == Execute(s.procs, next, t) && s'.timeline == s.timeline + [next]
            && s'.st.running == (if Finishes(s.procs, next) then IDLE else next)
            && s'.st.vr == Charged(a.vr, s.procs, b)
  {
    var picked, next := PickNext(a, s.procs, t).0, PidAt(s.procs, b);
    assert picked == State(a.vr, next) && s'.st == Settle(CfsScheduler(), picked, s.procs, next, t);
    SettleCharges(picked, s.procs, b, t);
  }
}
