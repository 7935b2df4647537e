/** The order in which a boost rebuilds the top level, in runs. */
module MlfqBoostOrder {
  import opened Processes
  import opened Engine
  import opened Timelines
  import opened WorkConservation
  import opened ReadyLists
  import opened MultiQueue
  import opened Mlfq

  /** The state in which boost tick `t` of the run of `P` finds the queues. */
  ghost function Found(P: Table, t: nat): State {
    var r := After(MlfqScheduler(), P, t);
    if r.None? then INIT else Admitted(r.value.st, r.value.procs, t)
  }

  /** The ready pids of tick `t` of the run, in arrival and then pid order. */
  ghost function Listed(P: Table, t: nat): seq<int> {
    var r := After(MlfqScheduler(), P, t);
    if r.None? then [] else Ready(r.value.procs, t)
  }

  /** The top level as the boost of tick `t` rebuilds it. */
  ghost function Rebuilt(P: Table, t: nat): seq<int> {
    var r := After(MlfqScheduler(), P, t);
    if r.None? then [] else Boost(Found(P, t), r.value.procs, t).m.q.l0
  }

  /** In a run, too, the boost's order is the documented one exactly when nobody is part way
      through a slice on the CPU, or the one who is comes first in that order anyway. */
  lemma RunBoostOrderIff(P: Table, t: nat)
    requires Indexable(P) && t > 0 && t % 50 == 0
    ensures Rebuilt(P, t) == Listed(P, t)
       <==> Found(P, t).running == IDLE || (Listed(P, t) != [] && Listed(P, t)[0] == Found(P, t).running)
  {
    var s, b, s' := OneTick(P, t);
    BoostOrderIff(Admitted(s.st, s.procs, t), s.procs, t);
  }

  // ---------- A run in which the orders differ ----------

  /** A long process from tick 0, and one that arrives on the tick before the first boost. */
  ghost predicate LateGuest(P: Table) {
    && Indexable(P) && |P| == 2
    && P[0].arrival == 0 && P[0].burst >= 51 && P[1].arrival == 49 && P[1].burst >= 2
  }

  lemma LateGuestExists()
    ensures LateGuest([Process(1, 0, 51, 0, 0, 0, 51, -1, -1), Process(2, 49, 2, 0, 0, 0, 2, -1, -1)])
  {
  }

  lemma StillThere(P: Table, t: nat, s: Sim<State>, i: nat)
    requires Fresh(P) && After(MlfqScheduler(), P, t) == Some(s) && i < |P|
             && P[i].arrival <= t < P[i].arrival + P[i].burst
    ensures |s.procs| == |P| && s.procs[i].remaining >= P[i].burst - (t - P[i].arrival) && Active(s.procs[i], t)
  {
    Ledger(MlfqScheduler(), P, t);
    Books(P, s.timeline, i, t);
    PlayedStatic(P[i], s.timeline, t);
  }

  /** As long as the first process is alone it is off the top level, but for its first slice. */
  ghost predicate Alone(P: Table, s: State, t: nat)
    requires |P| > 0
  {
    && (s.running != IDLE ==> s.running == P[0].pid)
    && (t == 0 ==> s == INIT)
    && (t == 1 ==> s.m.q.l0 == [] && s.running == P[0].pid && s.level == 0 && s.left == 1)
    && (t >= 2 ==> s.m.q.l0 == [] && (s.running != IDLE ==> s.level >= 1))
  }

  /** With one process ready, it is the one picked. */
  lemma OnlyOneRuns(ps: Table, t: nat, b: State, x: int)
    requires MidRun(ps, t) && PickedWell(b, b.running, LEVEL_QUANTUM, ps, t) && Ready(ps, t) == [x]
    ensures b.running == x
  {
    if b.running == IDLE {
      InReady(ps, t, x);
    } else {
      InReady(ps, t, b.running);
    }
  }

  lemma OneReady(ps: Table, t: nat)
    requires |ps| == 2 && Active(ps[0], t) && !Active(ps[1], t)
    ensures Ready(ps, t) == [ps[0].pid]
  {
    assert ReadyPids(ps, t, 1) == ReadyPids(ps, t, 0) + [ps[0].pid] == [ps[0].pid];
  }

  lemma FirstArrives(ps: Table)
    requires |ps| == 2 && ps[0].arrival == 0 && ps[1].arrival == 49
    ensures Arriving(ps, 0) == [ps[0].pid]
  {
    assert ArrivingPids(ps, 0, 1) == ArrivingPids(ps, 0, 0) + [ps[0].pid] == [ps[0].pid];
  }

  lemma AloneTick(P: Table, t: nat, s: Sim<State>, b: State)
    requires LateGuest(P) && t < 49 && SameProcesses(P, s.procs) && MidRun(s.procs, t) && Alone(P, s.st, t)
    requires After(MlfqScheduler(), P, t) == Some(s) && s.st.m.saved.l0 == 0
    requires var a := Admitted(s.st, s.procs, t); SliceOk(a, LEVEL_QUANTUM) && b == Select(a).0
    requires PickedWell(b, b.running, LEVEL_QUANTUM, s.procs, t)
    ensures Alone(P, Settled(b, s.procs), t + 1)
  {
    StillThere(P, t, s, 0);
    AloneServed(P, s.st, s.procs, t, b);
  }

  lemma AloneServed(P: Table, s: State, ps: Table, t: nat, b: State)
    requires LateGuest(P) && t < 49 && SameProcesses(P, ps) && MidRun(ps, t) && ps[0].remaining >= 2 && Alone(P, s, t)
    requires SliceOk(Admitted(s, ps, t), LEVEL_QUANTUM) && s.m.saved.l0 == 0 && b == Select(Admitted(s, ps, t)).0
    requires PickedWell(b, b.running, LEVEL_QUANTUM, ps, t)
    ensures Alone(P, Settled(b, ps), t + 1)
  {
    OneReady(ps, t);
    OnlyOneRuns(ps, t, b, ps[0].pid);
    IndexOfOwn(ps, 0);
    if t == 0 {
      FirstArrives(ps);
      assert Admitted(s, ps, t).m.q.l0 == [ps[0].pid];
    } else {
      assert ArrivingPids(ps, t, 1) == [];
      assert Admitted(s, ps, t) == s;
    }
  }

  ghost predicate AloneAt(P: Table, t: nat)
    requires |P| > 0
  {
    var r := After(MlfqScheduler(), P, t);
    r.Some? && Alone(P, r.value.st, t)
  }

  lemma AloneNext(P: Table, t: nat, next: nat)
    requires LateGuest(P) && next == t + 1 <= 49 && AloneAt(P, t)
    ensures AloneAt(P, next)
  {
    var s, b, s' := OneTick(P, t);
    NoBoostYet(t);
    AloneTick(P, t, s, b);
    AloneHolds(P, next, s');
  }

  lemma AloneHolds(P: Table, t: nat, s: Sim<State>)
    requires |P| > 0 && After(MlfqScheduler(), P, t) == Some(s) && Alone(P, s.st, t)
    ensures AloneAt(P, t)
  {
  }

  lemma NoBoostYet(t: nat)
    requires t < BOOST_INTERVAL
    ensures !IsBoostTick(t)
  {
  }

  lemma {:induction false} AloneUntil(P: Table, t: nat)
    requires LateGuest(P) && t <= 49
    ensures AloneAt(P, t)
  {
    if t > 0 {
      AloneUntil(P, t - 1);
      AloneNext(P, t - 1, t);
    }
  }

  /** The guest takes the CPU from the other process at once. */
  lemma GuestRuns(P: Table, s: State, ps: Table, b: State)
    requires LateGuest(P) && SameProcesses(P, ps) && MidRun(ps, 49) && Alone(P, s, 49)
    requires SliceOk(Admitted(s, ps, 49), LEVEL_QUANTUM) && s.m.saved.l0 == 0 && b == Select(Admitted(s, ps, 49)).0
    ensures Settled(b, ps).running == P[1].pid && Execute(ps, b.running, 49)[1].remaining >= 1
  {
    assert ArrivingPids(ps, 49, 1) == [];
    assert Arriving(ps, 49) == ArrivingPids(ps, 49, 1) + [ps[1].pid] == [ps[1].pid];
    assert Admitted(s, ps, 49).m.q.l0 == [] + [ps[1].pid] == [ps[1].pid];
    IndexOfOwn(ps, 1);
  }

  lemma BothReady(ps: Table, t: nat)
    requires |ps| == 2 && Active(ps[0], t) && Active(ps[1], t)
    ensures Ready(ps, t) == [ps[0].pid, ps[1].pid]
  {
    assert ReadyPids(ps, t, 1) == ReadyPids(ps, t, 0) + [ps[0].pid] == [ps[0].pid];
  }

  /** At the boost of tick 50 the guest is running, so that it is rebuilt ahead of the process
      that the documentation puts first. */
  lemma BoostReorders(P: Table)
    requires LateGuest(P)
    ensures Rebuilt(P, 50) == [P[1].pid, P[0].pid] && Listed(P, 50) == [P[0].pid, P[1].pid]
  {
    var r, b, s := OneTick(P, 49);
    AloneUntil(P, 49);
    GuestRuns(P, r.st, r.procs, b);
    GuestFirst(P, s);
  }

  lemma GuestFirst(P: Table, s: Sim<State>)
    requires LateGuest(P) && After(MlfqScheduler(), P, 50) == Some(s) && s.st.running == P[1].pid
    ensures Rebuilt(P, 50) == [P[1].pid, P[0].pid] && Listed(P, 50) == [P[0].pid, P[1].pid]
  {
    var r := StateAt(P, 50);
    StillThere(P, 50, s, 0);
    StillThere(P, 50, s, 1);
    BothReady(s.procs, 50);
    BoostHeld(Admitted(s.st, s.procs, 50), s.procs, 50);
    assert Others(s.procs, 50, P[1].pid, 1) == [P[0].pid];
  }
}
