/** The fixed arrays are big enough.

    In a run of a loaded table every callback finds the room that its array form asks for:
    what is queued and what is running are among the processes arrived so far, each once. */
module Capacity {
  import opened Processes
  import opened Engine
  import opened Timelines
  import opened WorkConservation
  import opened ReadyLists
  import opened MultiQueue
  import Fcfs
  import RoundRobin
  import Mlq
  import Mlfq

  /** When the `k`-th process is about to be admitted, the ready processes and this tick's
      earlier arrivals are among the first `k`. */
  lemma RoomForArrival(ps: Table, tick: int, k: nat)
    requires MidRun(ps, tick) && k < |ps| && ps[k].arrival == tick
    ensures |Ready(ps, tick - 1)| + |ArrivingPids(ps, tick, k)| <= k
  {
    LaterAreNotReady(ps, tick, k, |ps|);
    ReadyAndArriving(ps, tick, k);
  }

  lemma {:induction false} LaterAreNotReady(ps: Table, tick: int, k: nat, n: nat)
    requires Sorted(ps) && k < |ps| && ps[k].arrival == tick && k <= n <= |ps|
    ensures ReadyPids(ps, tick - 1, n) == ReadyPids(ps, tick - 1, k)
  {
    if k < n {
      LaterAreNotReady(ps, tick, k, n - 1);
      if k < n - 1 { assert Before(ps[k], ps[n - 1]); }
    }
  }

  lemma {:induction false} ReadyAndArriving(ps: Table, tick: int, k: nat)
    requires k <= |ps|
    ensures |ReadyPids(ps, tick - 1, k)| + |ArrivingPids(ps, tick, k)| <= k
  {
    if k > 0 { ReadyAndArriving(ps, tick, k - 1); }
  }

  lemma LengthOfLists(l: seq<int>, ps: Table, tick: int)
    requires Lists(l, ps, tick)
    ensures |l| == |Ready(ps, tick)|
  {
    assert |multiset(l)| == |l| && |multiset(Ready(ps, tick))| == |Ready(ps, tick)|;
  }

  /** Round Robin's ring has room for every arrival, and for the running process. */
  lemma {:induction false} RrRoom(q: int, P: Table, t: nat, k: nat)
    requires Loaded(P)
    ensures After(RoundRobin.Rr(q), P, t).Some?
    ensures var s := After(RoundRobin.Rr(q), P, t).value;
            k < |P| && s.procs[k].arrival == t ==>
              |Admit(RoundRobin.Rr(q), s.st, s.procs, t, k).queue| < MAX_PROCESSES
    ensures var s := After(RoundRobin.Rr(q), P, t).value; var b := Choice(RoundRobin.Rr(q), s).0;
            b.running != IDLE ==> |b.queue| < MAX_PROCESSES
  {
    var s, a, b, s' := RoundRobin.OneTick(q, P, t);
    RrTickRoom(q, s, a, b, t, k);
  }

  lemma {:induction false} RrTickRoom(q: int, s: Sim<RoundRobin.State>, a: RoundRobin.State, b: RoundRobin.State,
      t: nat, k: nat)
    requires |s.procs| <= MAX_PROCESSES && |s.timeline| == t && MidRun(s.procs, t) && RoundRobin.Inv(s.st, s.procs, t)
    requires a == RoundRobin.Admitted(s.st, s.procs, t) && b == RoundRobin.PickNext(a).0
    requires Lists(OnCpu(a.running) + a.queue, s.procs, t)
    ensures k < |s.procs| && s.procs[k].arrival == t ==>
              |Admit(RoundRobin.Rr(q), s.st, s.procs, t, k).queue| < MAX_PROCESSES
    ensures b.running != IDLE ==> |b.queue| < MAX_PROCESSES
    ensures Choice(RoundRobin.Rr(q), s).0 == b
  {
    RoundRobin.Admits(q, s.st, s.procs, t, |s.procs|);
    ListsLength(OnCpu(a.running) + a.queue, s.procs, t);
    if k < |s.procs| && s.procs[k].arrival == t {
      RoundRobin.Admits(q, s.st, s.procs, t, k);
      LengthOfLists(OnCpu(s.st.running) + s.st.queue, s.procs, t - 1);
      RoomForArrival(s.procs, t, k);
    }
  }

  /** Of three queues holding fewer than `n` in all, none holds `n`. */
  predicate LevelsBelow(m: Queues, n: int) {
    |m.q.l0| < n && |m.q.l1| < n && |m.q.l2| < n
  }

  /** MLQ's rings have room for every arrival, and for the running process at every level. */
  lemma {:induction false} MlqRoom(P: Table, t: nat, k: nat)
    requires Loaded(P)
    ensures After(Mlq.MlqScheduler(), P, t).Some?
    ensures var s := After(Mlq.MlqScheduler(), P, t).value;
            k < |P| && s.procs[k].arrival == t ==>
              LevelsBelow(Admit(Mlq.MlqScheduler(), s.st, s.procs, t, k).m, MAX_PROCESSES)
    ensures var s := After(Mlq.MlqScheduler(), P, t).value;
            var a, b := Admit(Mlq.MlqScheduler(), s.st, s.procs, t, |P|), Choice(Mlq.MlqScheduler(), s).0;
            && (a.running != IDLE ==> LevelsBelow(a.m, MAX_PROCESSES))
            && (b.running != IDLE ==> LevelsBelow(b.m, MAX_PROCESSES))
  {
    Mlq.Conserves(P);
    assert HoldsAt(Mlq.MlqScheduler(), P, Mlq.InvF(), t);
    MlqTickRoom(After(Mlq.MlqScheduler(), P, t).value, t, k);
  }

  lemma {:induction false} MlqTickRoom(s: Sim<State>, t: nat, k: nat)
    requires |s.procs| <= MAX_PROCESSES && |s.timeline| == t && MidRun(s.procs, t) && Mlq.Inv(s.st, s.procs, t)
    ensures k < |s.procs| && s.procs[k].arrival == t ==>
              LevelsBelow(Admit(Mlq.MlqScheduler(), s.st, s.procs, t, k).m, MAX_PROCESSES)
    ensures var a, b := Admit(Mlq.MlqScheduler(), s.st, s.procs, t, |s.procs|), Choice(Mlq.MlqScheduler(), s).0;
            && (a.running != IDLE ==> LevelsBelow(a.m, MAX_PROCESSES))
            && (b.running != IDLE ==> LevelsBelow(b.m, MAX_PROCESSES))
  {
    var a := Mlq.AdmitKeeps(s.st, s.procs, t);
    Mlq.PickKeeps(a, s.procs, t);
    HeldRoom(a, s.procs, t);
    HeldRoom(Mlq.PickNext(a).0, s.procs, t);
    if k < |s.procs| && s.procs[k].arrival == t {
      Mlq.Admits(s.st, s.procs, t, k);
      PartialRoom(Admit(Mlq.MlqScheduler(), s.st, s.procs, t, k), s.st, s.procs, t, k);
    }
  }

  lemma HeldRoom(a: State, ps: Table, t: nat)
    requires |ps| <= MAX_PROCESSES && MidRun(ps, t) && Lists(Held(a), ps, t)
    ensures a.running != IDLE ==> LevelsBelow(a.m, MAX_PROCESSES)
  {
    ListsLength(Held(a), ps, t);
  }

  lemma PartialRoom(a: State, s: State, ps: Table, t: nat, k: nat)
    requires |ps| <= MAX_PROCESSES && MidRun(ps, t) && k < |ps| && ps[k].arrival == t && Lists(Held(s), ps, t - 1)
    requires multiset(Held(a)) == multiset(Held(s) + ArrivingPids(ps, t, k))
    ensures LevelsBelow(a.m, MAX_PROCESSES)
  {
    assert |multiset(Held(a))| == |Held(a)|;
    assert |multiset(Held(s) + ArrivingPids(ps, t, k))| == |Held(s) + ArrivingPids(ps, t, k)|;
    LengthOfLists(Held(s), ps, t - 1);
    RoomForArrival(ps, t, k);
  }

  /** MLFQ's rings have room for every arrival, for the running process at every level, and
      for the running process ahead of a rebuilt top level. */
  lemma {:induction false} MlfqRoom(P: Table, t: nat, k: nat)
    requires Loaded(P)
    ensures After(Mlfq.MlfqScheduler(), P, t).Some?
    ensures var s := After(Mlfq.MlfqScheduler(), P, t).value;
            k < |P| && s.procs[k].arrival == t ==>
              LevelsBelow(Admit(Mlfq.MlfqScheduler(), s.st, s.procs, t, k).m, MAX_PROCESSES)
    ensures var s := After(Mlfq.MlfqScheduler(), P, t).value;
            var a, b := Admit(Mlfq.MlfqScheduler(), s.st, s.procs, t, |P|), Choice(Mlfq.MlfqScheduler(), s).0;
            && (a.running != IDLE ==> LevelsBelow(a.m, MAX_PROCESSES))
            && (a.running != IDLE ==> |Mlfq.Others(s.procs, t, a.running, |P|)| < MAX_PROCESSES)
            && (b.running != IDLE ==> LevelsBelow(b.m, MAX_PROCESSES))
  {
    var s, b, s' := Mlfq.OneTick(P, t);
    MlfqTickRoom(s, t, k);
  }

  lemma MlfqTickRoom(s: Sim<State>, t: nat, k: nat)
    requires |s.procs| <= MAX_PROCESSES && |s.timeline| == t && MidRun(s.procs, t) && Mlfq.Inv(s.st, s.procs, t)
    ensures k < |s.procs| && s.procs[k].arrival == t ==>
              LevelsBelow(Admit(Mlfq.MlfqScheduler(), s.st, s.procs, t, k).m, MAX_PROCESSES)
    ensures var a, b := Admit(Mlfq.MlfqScheduler(), s.st, s.procs, t, |s.procs|), Choice(Mlfq.MlfqScheduler(), s).0;
            && (a.running != IDLE ==> LevelsBelow(a.m, MAX_PROCESSES))
            && (a.running != IDLE ==> |Mlfq.Others(s.procs, t, a.running, |s.procs|)| < MAX_PROCESSES)
            && (b.running != IDLE ==> LevelsBelow(b.m, MAX_PROCESSES))
  {
    var a := Mlfq.AdmitKeeps(s.st, s.procs, t);
    Mlfq.PickKeeps(a, s.procs, t);
    HeldRoom(a, s.procs, t);
    HeldRoom(Mlfq.PickNext(a, s.procs, t).0, s.procs, t);
    OthersRoom(a, s.procs, t);
    if k < |s.procs| && s.procs[k].arrival == t { MlfqArrivalRoom(s.st, s.procs, t, k); }
  }

  lemma MlfqArrivalRoom(s: State, ps: Table, t: nat, k: nat)
    requires |ps| <= MAX_PROCESSES && MidRun(ps, t) && k < |ps| && ps[k].arrival == t && Lists(Held(s), ps, t - 1)
    ensures LevelsBelow(Admit(Mlfq.MlfqScheduler(), s, ps, t, k).m, MAX_PROCESSES)
  {
    var l := ArrivingPids(ps, t, k);
    Mlfq.Admits(s, ps, t, k);
    var c := s.(m := s.m.(q := s.m.q.(l0 := s.m.q.l0 + l)));
    assert multiset(Held(c)) == multiset(Held(s) + l);
    PartialRoom(c, s, ps, t, k);
  }

  lemma OthersRoom(a: State, ps: Table, t: nat)
    requires |ps| <= MAX_PROCESSES && MidRun(ps, t) && Lists(Held(a), ps, t)
    ensures a.running != IDLE ==> |Mlfq.Others(ps, t, a.running, |ps|)| < MAX_PROCESSES
  {
    if a.running != IDLE {
      var rest := Mlfq.Others(ps, t, a.running, |ps|);
      Mlfq.OthersAre(ps, t, a.running, |ps|);
      ListsIff(Held(a), ps, t, a.running);
      InReady(ps, t, a.running);
      assert |multiset(Ready(ps, t))| == |Ready(ps, t)| && |multiset(rest)| == |rest|;
      ReadyDistinct(ps, t, |ps|);
    }
  }

  /** FCFS enqueues each process once: its array holds exactly those arrived so far. */
  lemma {:induction false} FcfsHolds(P: Table, t: nat)
    requires Fresh(P)
    ensures After(Fcfs.FcfsScheduler(), P, t).Some?
    ensures |After(Fcfs.FcfsScheduler(), P, t).value.st.queue| == Arrived(P, t - 1)
  {
    if t > 0 {
      FcfsHolds(P, t - 1);
      FcfsGoesOn(P, t - 1, t);
    }
  }

  lemma FcfsGoesOn(P: Table, t: nat, next: nat)
    requires Fresh(P) && next == t + 1 && After(Fcfs.FcfsScheduler(), P, t).Some?
    requires |After(Fcfs.FcfsScheduler(), P, t).value.st.queue| == Arrived(P, t - 1)
    ensures After(Fcfs.FcfsScheduler(), P, next).Some?
    ensures |After(Fcfs.FcfsScheduler(), P, next).value.st.queue| == Arrived(P, t)
  {
    FcfsGoesThrough(P, next);
    var s := Unroll(Fcfs.FcfsScheduler(), P, next);
    FcfsAdmitted(P, s, t, |P|);
    FcfsKeepsQueue(s, After(Fcfs.FcfsScheduler(), P, next).value);
  }

  lemma FcfsGoesThrough(P: Table, t: nat)
    requires Fresh(P)
    ensures After(Fcfs.FcfsScheduler(), P, t).Some?
  {
    Fcfs.Conserves(P);
    assert HoldsAt(Fcfs.FcfsScheduler(), P, Fcfs.InvF(), t);
  }

  /** Only arrivals write FCFS's array. */
  lemma FcfsKeepsQueue(s: Sim<Fcfs.State>, s': Sim<Fcfs.State>)
    requires Step(Fcfs.FcfsScheduler(), s) == Some(s')
    ensures s'.st.queue == Admit(Fcfs.FcfsScheduler(), s.st, s.procs, |s.timeline|, |s.procs|).queue
  {
  }

  lemma FcfsAdmitted(P: Table, s: Sim<Fcfs.State>, t: nat, k: nat)
    requires Fresh(P) && k <= |P| && |s.timeline| == t && PlayedTable(P, s.timeline, t, s.procs)
    requires |s.st.queue| == Arrived(P, t - 1)
    ensures |Admit(Fcfs.FcfsScheduler(), s.st, s.procs, t, k).queue|
         == Arrived(P, t - 1) + |ArrivingPids(s.procs, t, k)|
    ensures |ArrivingPids(s.procs, t, |P|)| == Arrived(P, t) - Arrived(P, t - 1)
  {
    Fcfs.Admits(s.st, s.procs, t, k);
    forall i | 0 <= i < |P| ensures s.procs[i].arrival == P[i].arrival { PlayedStatic(P[i], s.timeline, t); }
    ArrivingCount(P, s.procs, t, |P|);
    ArrivedMonotone(P, t - 1, t);
  }

  lemma {:induction false} ArrivingCount(P: Table, ps: Table, t: int, k: nat)
    requires Sorted(P) && |ps| == |P| && k <= |P| && forall i :: 0 <= i < |P| ==> ps[i].arrival == P[i].arrival
    ensures var m, m' := Arrived(P, t - 1), Arrived(P, t);
            |ArrivingPids(ps, t, k)| == (if k < m' then k else m') - (if k < m then k else m)
  {
    ArrivedMonotone(P, t - 1, t);
    if k > 0 {
      ArrivingCount(P, ps, t, k - 1);
      ArrivedIff(P, t - 1, k - 1);
      ArrivedIff(P, t, k - 1);
    }
  }

  /** FCFS's array has room for every arrival. */
  lemma FcfsRoom(P: Table, t: nat, k: nat)
    requires Loaded(P) && k < |P|
    ensures After(Fcfs.FcfsScheduler(), P, t).Some?
    ensures var s := After(Fcfs.FcfsScheduler(), P, t).value;
            s.procs[k].arrival == t ==> |Admit(Fcfs.FcfsScheduler(), s.st, s.procs, t, k).queue| < MAX_PROCESSES
  {
    FcfsHolds(P, t);
    Ledger(Fcfs.FcfsScheduler(), P, t);
    var s := After(Fcfs.FcfsScheduler(), P, t).value;
    FcfsAdmitted(P, s, t, k);
    forall i | 0 <= i < |P| ensures s.procs[i].arrival == P[i].arrival { PlayedStatic(P[i], s.timeline, t); }
    ArrivingCount(P, s.procs, t, k);
    if s.procs[k].arrival == t { ArrivedIff(P, t - 1, k); ArrivedIff(P, t, k); }
  }
}
