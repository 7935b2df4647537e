/** FCFS has the least largest turnaround of all accepted runs. */
module FcfsWorstCase {
  import opened Processes
  import opened Engine
  import opened Timelines
  import opened LittlesLaw
  import opened WorkConservation
  import opened ReadyLists
  import opened Fcfs

  // ---------- FCFS runs the first in the table ----------

  /** FCFS holds the ready list itself, in table order. */
  ghost predicate InOrder(s: State, ps: Table, tick: int) {
    s.head <= |s.queue| && OnCpu(s.running) + Fcfs.Waiting(s) == Ready(ps, tick - 1)
  }

  ghost function InOrderF(): (State, Table, int) -> bool { (s, ps, tick) => InOrder(s, ps, tick) }

  lemma AdmitInOrder(s: State, ps: Table, tick: nat) returns (a: State)
    requires MidRun(ps, tick) && InOrder(s, ps, tick)
    ensures a == Admit(FcfsScheduler(), s, ps, tick, |ps|) && a.head <= |a.queue|
    ensures OnCpu(a.running) + Fcfs.Waiting(a) == Ready(ps, tick)
  {
    a := AdmitKeeps(s, ps, tick);
    ReadySplit(ps, tick, |ps|);
    assert OnCpu(s.running) + (Fcfs.Waiting(s) + Arriving(ps, tick))
           == OnCpu(s.running) + Fcfs.Waiting(s) + Arriving(ps, tick);
  }

  /** The pick is the head of the ready list, and leaves the list as it is. */
  lemma PickInOrder(a: State, ps: Table, tick: nat)
    requires MidRun(ps, tick) && a.head <= |a.queue| && OnCpu(a.running) + Fcfs.Waiting(a) == Ready(ps, tick)
    ensures var (b, next) := PickNext(a);
            && b.running == next && b.head <= |b.queue| && OnCpu(next) + Fcfs.Waiting(b) == Ready(ps, tick)
            && (next == IDLE ==> Ready(ps, tick) == [])
                && (next != IDLE ==> Ready(ps, tick)[0] == next && Runnable(ps, next, tick))
  {
    var l := Ready(ps, tick);
    if l != [] {
      ListsHead(l, ps, tick);
      PickIsHead(a);
    }
  }

  lemma SettleInOrder(b: State, ps: Table, tick: nat)
    requires MidRun(ps, tick) && b.head <= |b.queue| && b.running != IDLE && Runnable(ps, b.running, tick)
    requires OnCpu(b.running) + Fcfs.Waiting(b) == Ready(ps, tick)
    ensures InOrder(Settle(FcfsScheduler(), b, ps, b.running, tick), Execute(ps, b.running, tick), tick + 1)
  {
    assert Ready(ps, tick) == [b.running] + Fcfs.Waiting(b);
    ReadyHeadExecutes(ps, tick, b.running, |ps|);
  }

  lemma OrderTick(s: State, ps: Table, cur: int, tick: nat)
    requires MidRun(ps, tick) && InOrder(s, ps, tick)
    ensures GoodTick(FcfsScheduler(), InOrderF(), s, ps, cur, tick)
  {
    var a := AdmitInOrder(s, ps, tick);
    PickInOrder(a, ps, tick);
    var (b, next) := PickNext(a);
    if next != IDLE { SettleInOrder(b, ps, tick); } else { NobodyReady(ps, tick); }
  }

  lemma NobodyReady(ps: Table, tick: nat)
    requires Ready(ps, tick) == []
    ensures forall i :: 0 <= i < |ps| ==> !Active(ps[i], tick)
  {
    ListsNobody(ps, tick);
  }

  lemma OrderThroughout(P: Table)
    requires Fresh(P)
    ensures forall t: nat :: HoldsAt(FcfsScheduler(), P, InOrderF(), t)
  {
    NobodyYet(P, |P|);
    forall s, ps, cur, tick: nat | MidRun(ps, tick) && InOrderF()(s, ps, tick)
      ensures GoodTick(FcfsScheduler(), InOrderF(), s, ps, cur, tick)
    {
      OrderTick(s, ps, cur, tick);
    }
    WorkConservingByInvariant(FcfsScheduler(), P, InOrderF());
  }

  /** The head of the ready list is the first active process of the table. */
  lemma {:induction false} HeadIsFirst(ps: Table, tick: int, k: nat)
    requires Sorted(ps) && k <= |ps| && ReadyPids(ps, tick, k) != []
    ensures var j := IndexOf(ps, ReadyPids(ps, tick, k)[0]);
            0 <= j < k && forall i :: 0 <= i < j ==> !Active(ps[i], tick)
  {
    if ReadyPids(ps, tick, k - 1) == [] {
      IndexOfOwn(ps, k - 1);
      NoneReady(ps, tick, k - 1);
    } else {
      HeadIsFirst(ps, tick, k - 1);
    }
  }

  lemma {:induction false} NoneReady(ps: Table, tick: int, k: nat)
    requires k <= |ps| && ReadyPids(ps, tick, k) == []
    ensures forall i :: 0 <= i < k ==> !Active(ps[i], tick)
  {
    if k > 0 { NoneReady(ps, tick, k - 1); }
  }

  /** Each tick goes to the first active process in the table, and none is wasted. */
  ghost predicate FirstServedTick(P: Table, tl: seq<int>, t: nat)
    requires t < |tl|
  {
    ConservingTick(P, tl, t) && forall i :: 0 <= i < IndexOf(P, tl[t]) ==> !ActiveAt(P, tl, i, t)
  }

  ghost predicate FirstServed(P: Table, tl: seq<int>) {
    forall t :: 0 <= t < |tl| ==> FirstServedTick(P, tl, t)
  }

  lemma FcfsPicksFirst(P: Table, t: nat) returns (s: Sim<State>, next: int)
    requires Fresh(P)
    ensures After(FcfsScheduler(), P, t) == Some(s) && PlayedTable(P, s.timeline, t, s.procs)
    ensures After(FcfsScheduler(), P, t + 1).Some?
            && After(FcfsScheduler(), P, t + 1).value.timeline == s.timeline + [next]
    ensures next == IDLE ==> forall i :: 0 <= i < |P| ==> !Active(s.procs[i], t)
    ensures forall i :: 0 <= i < IndexOf(s.procs, next) ==> !Active(s.procs[i], t)
  {
    OrderThroughout(P);
    assert HoldsAt(FcfsScheduler(), P, InOrderF(), t) && HoldsAt(FcfsScheduler(), P, InOrderF(), t + 1);
    s := Unroll(FcfsScheduler(), P, t + 1);
    next := Choice(FcfsScheduler(), s).1;
    var a := AdmitInOrder(s.st, s.procs, t);
    PickInOrder(a, s.procs, t);
    if next == IDLE {
      NobodyReady(s.procs, t);
    } else {
      HeadIsFirst(s.procs, t, |s.procs|);
    }
  }

  lemma FcfsServesFirst(P: Table, t: nat, tl: seq<int>)
    requires Fresh(P) && t < |tl| && After(FcfsScheduler(), P, |tl|).Some?
             && After(FcfsScheduler(), P, |tl|).value.timeline == tl
    ensures FirstServedTick(P, tl, t)
  {
    var s, next := FcfsPicksFirst(P, t);
    AfterPrefix(FcfsScheduler(), P, |tl|, t + 1);
    FirstOnTick(P, t, tl, s.timeline, s.procs, next);
  }

  lemma FirstOnTick(P: Table, t: nat, tl: seq<int>, prefix: seq<int>, ps: Table, next: int)
    requires Fresh(P) && t < |tl| && |prefix| == t && tl[..t + 1] == prefix + [next] && PlayedTable(P, prefix, t, ps)
    requires next == IDLE ==> forall i :: 0 <= i < |P| ==> !Active(ps[i], t)
    requires forall i :: 0 <= i < IndexOf(ps, next) ==> !Active(ps[i], t)
    ensures FirstServedTick(P, tl, t)
  {
    PlayedSame(P, prefix, t, ps);
    SameIndex(P, ps, next);
    assert tl[t] == tl[..t + 1][t] == next;
    assert tl[..t] == tl[..t + 1][..t] == prefix[..t];
    forall i | 0 <= i < |P| ensures Played(P[i], tl, t) == ps[i] { PlayedPrefix(P[i], tl, prefix, t); }
  }

  // ---------- The first processes of a table ----------

  /** A timeline with the ticks of all but the first `k` processes idle. */
  function Restrict(P: Table, k: nat, tl: seq<int>): (r: seq<int>)
    ensures |r| == |tl| && forall t :: 0 <= t < |tl| ==> r[t] == if IndexOf(P, tl[t]) < k then tl[t] else IDLE
  {
    seq(|tl|, t requires 0 <= t < |tl| => if IndexOf(P, tl[t]) < k then tl[t] else IDLE)
  }

  lemma FirstFresh(P: Table, k: nat)
    requires Fresh(P) && k <= |P|
    ensures Fresh(P[..k])
  {
    forall i, j | 0 <= i < j < k
      ensures Before(P[..k][i], P[..k][j]) && P[..k][i].pid != P[..k][j].pid
    {
      assert Before(P[i], P[j]);
    }
  }

  lemma FirstIndex(P: Table, k: nat, pid: int)
    requires Sorted(P) && k <= |P|
    ensures IndexOf(P[..k], pid) == if IndexOf(P, pid) < k then IndexOf(P, pid) else -1
  {
    var a, b := IndexOf(P, pid), IndexOf(P[..k], pid);
    if b >= 0 { IndexOfOwn(P, b); }
    if 0 <= a < k { assert P[..k][a].pid == pid; }
  }

  lemma {:induction false} RestrictPlayed(P: Table, k: nat, tl: seq<int>, i: nat, t: nat)
    requires Fresh(P) && i < k <= |P| && t <= |tl|
    ensures Played(P[i], Restrict(P, k, tl), t) == Played(P[i], tl, t)
  {
    if t > 0 {
      RestrictPlayed(P, k, tl, i, t - 1);
      IndexOfOwn(P, i);
    }
  }

  lemma RestrictLegal(P: Table, k: nat, tl: seq<int>)
    requires Fresh(P) && Legal(P, tl) && k <= |P|
    ensures Legal(P[..k], Restrict(P, k, tl))
  {
    var r := Restrict(P, k, tl);
    forall t | 0 <= t < |r|
      ensures LegalTick(P[..k], r, t)
    {
      assert LegalTick(P, tl, t);
      FirstIndex(P, k, tl[t]);
      if r[t] != IDLE { RestrictPlayed(P, k, tl, IndexOf(P, tl[t]), t); }
    }
  }

  /** If the first active process is always served, the first `k` never wait for the others. */
  lemma RestrictConserving(P: Table, k: nat, tl: seq<int>)
    requires Fresh(P) && FirstServed(P, tl) && k <= |P|
    ensures Conserving(P[..k], Restrict(P, k, tl))
  {
    var r := Restrict(P, k, tl);
    forall t | 0 <= t < |r|
      ensures ConservingTick(P[..k], r, t)
    {
      assert FirstServedTick(P, tl, t);
      forall i | 0 <= i < k && r[t] == IDLE
        ensures !ActiveAt(P[..k], r, i, t)
      {
        RestrictPlayed(P, k, tl, i, t);
        assert tl[t] == IDLE || IndexOf(P, tl[t]) >= k;
        assert !ActiveAt(P, tl, i, t);
      }
    }
  }

  lemma FirstDoneIff(P: Table, k: nat, tl: seq<int>, t: nat)
    requires Fresh(P) && Legal(P, tl) && k <= |P| && t <= |tl|
    ensures BusyTicks(Restrict(P, k, tl), t) == SumBurst(P[..k], k) <==> forall i :: 0 <= i < k ==>
            Played(P[i], tl, t).remaining == 0
  {
    var q, r := P[..k], Restrict(P, k, tl);
    FirstFresh(P, k);
    RestrictLegal(P, k, tl);
    BusyIsExecuted(q, r, t);
    DoneBySum(q, r, t, k);
    forall i | 0 <= i < k ensures Played(q[i], r, t) == Played(P[i], tl, t) { RestrictPlayed(P, k, tl, i, t); }
  }

  // ---------- The worst-off process ----------

  /** Some process among the first `k` is not done before their own makespan. */
  lemma SomebodyIsLate(P: Table, k: nat, tl: seq<int>) returns (m: nat)
    requires Fresh(P) && Legal(P, tl) && AllDone(P, tl, |tl|) && 0 < k <= |P|
    ensures m < k && Played(P[m], tl, |tl|).completion >= Makespan(P[..k])
  {
    var q, T := P[..k], Makespan(P[..k]);
    FirstFresh(P, k);
    FinishBounds(q, 0, 0);
    if T - 1 > |tl| {
      m := 0;
      NotDoneBy(P, k, tl, |tl|);
    } else {
      NotDoneBy(P, k, tl, T - 1);
      m :| m < k && Played(P[m], tl, T - 1).remaining != 0;
      DoneLater(P, tl, m, T - 1);
    }
  }

  lemma NotDoneBy(P: Table, k: nat, tl: seq<int>, t: nat)
    requires Fresh(P) && Legal(P, tl) && 0 < k <= |P| && t <= |tl| && t < Makespan(P[..k])
    ensures exists m: nat :: m < k && Played(P[m], tl, t).remaining != 0
  {
    var q := P[..k];
    FirstFresh(P, k);
    RestrictLegal(P, k, tl);
    NobodyIsBusier(q, Restrict(P, k, tl), t);
    BusyUntilMakespan(q, t);
    FirstDoneIff(P, k, tl, t);
  }

  /** Whoever is not done after `t` ticks completes after tick `t`. */
  lemma DoneLater(P: Table, tl: seq<int>, i: nat, t: nat)
    requires Fresh(P) && Legal(P, tl) && i < |P| && t <= |tl|
    requires Played(P[i], tl, t).remaining != 0 && Played(P[i], tl, |tl|).remaining == 0
    ensures Played(P[i], tl, |tl|).completion > t
  {
    var c := Played(P[i], tl, |tl|).completion;
    Books(P, tl, i, |tl|);
    Books(P, tl, i, t);
    if c <= t { TicksGrow(tl, P[i].pid, c, t); }
  }

  lemma {:induction false} TicksGrow(tl: seq<int>, pid: int, t: nat, u: nat)
    requires t <= u <= |tl|
    ensures TicksOf(tl, pid, t) <= TicksOf(tl, pid, u)
  {
    if t < u { TicksGrow(tl, pid, t, u - 1); }
  }

  /** Under first-served-first nobody is later than the makespan of those up to it. */
  lemma FirstServedDone(P: Table, i: nat, tl: seq<int>)
    requires Fresh(P) && Legal(P, tl) && FirstServed(P, tl) && AllDone(P, tl, |tl|) && i < |P|
    ensures Played(P[i], tl, |tl|).completion <= Makespan(P[..i + 1])
  {
    var k := i + 1;
    var q, r, T := P[..k], Restrict(P, k, tl), Makespan(P[..k]);
    FirstFresh(P, k);
    RestrictLegal(P, k, tl);
    RestrictConserving(P, k, tl);
    FirstDoneIff(P, k, tl, |tl|);
    ConservingBusy(q, r, |tl|);
    BusyUntilMakespan(q, |tl|);
    FinishBounds(q, 0, 0);
    ConservingBusy(q, r, T);
    BusyUntilMakespan(q, T);
    FirstDoneIff(P, k, tl, T);
    DoneBefore(P, tl, i, T);
  }

  lemma DoneBefore(P: Table, tl: seq<int>, i: nat, t: nat)
    requires Fresh(P) && Legal(P, tl) && i < |P| && t <= |tl| && Played(P[i], tl, t).remaining == 0
    ensures Played(P[i], tl, |tl|).completion <= t
  {
    Books(P, tl, i, t);
    forall v | t <= v <= |tl| ensures Played(P[i], tl, v).remaining >= 0 { Books(P, tl, i, v); }
    DoneStays(P[i], tl, t, |tl|);
  }

  /** The largest turnaround among the first `k`. */
  function MaxTurnaround(ps: Table, k: nat): (m: int)
    requires k <= |ps|
    ensures forall i :: 0 <= i < k ==> Turnaround(ps[i]) <= m
    ensures m > 0 ==> exists i :: 0 <= i < k && Turnaround(ps[i]) == m
    ensures m >= 0
  {
    if k == 0 then 0
    else
      var m := MaxTurnaround(ps, k - 1);
      if Turnaround(ps[k - 1]) > m then Turnaround(ps[k - 1]) else m
  }

  /** For every process of an FCFS run some process, no later in the table, has at least its
      turnaround in any other complete timeline. */
  lemma SomebodyWaitsAsLong(P: Table, i: nat, a: seq<int>, b: seq<int>) returns (m: nat)
    requires Fresh(P) && i < |P| && Legal(P, a) && FirstServed(P, a) && AllDone(P, a, |a|)
    requires Legal(P, b) && AllDone(P, b, |b|)
    ensures m <= i
    ensures Played(P[i], a, |a|).completion - P[i].arrival <= Played(P[m], b, |b|).completion - P[m].arrival
  {
    FirstServedDone(P, i, a);
    m := SomebodyIsLate(P, i + 1, b);
    if m < i { assert Before(P[m], P[i]); }
  }

  /** Whatever the engine accepts, from any scheduler, FCFS accepts too, and its largest
      turnaround is no larger. */
  lemma FcfsMinimisesWorst<S>(sc: Scheduler<S>, P: Table)
    requires Fresh(P) && Run(sc, P).Some?
    ensures Run(FcfsScheduler(), P).Some?
    ensures |Run(FcfsScheduler(), P).value.procs| == |Run(sc, P).value.procs| == |P|
    ensures MaxTurnaround(Run(FcfsScheduler(), P).value.procs, |P|) <= MaxTurnaround(Run(sc, P).value.procs, |P|)
  {
    NoRunIsShorter(sc, P);
    Conserves(P);
    Outcome(FcfsScheduler(), P);
    AcceptedRun(sc, P);
    AcceptedRun(FcfsScheduler(), P);
    RunIffStops(FcfsScheduler(), P);
    var s, r := Run(FcfsScheduler(), P).value, Run(sc, P).value;
    forall t | 0 <= t < |s.timeline| ensures FirstServedTick(P, s.timeline, t) { FcfsServesFirst(P, t, s.timeline); }
    WorstByTimelines(P, s.timeline, r.timeline, s.procs, r.procs);
  }

  lemma WorstByTimelines(P: Table, a: seq<int>, b: seq<int>, ps: Table, qs: Table)
    requires Fresh(P) && Legal(P, a) && FirstServed(P, a) && AllDone(P, a, |a|) && PlayedTable(P, a, |a|, ps)
    requires Legal(P, b) && AllDone(P, b, |b|) && PlayedTable(P, b, |b|, qs)
    ensures MaxTurnaround(ps, |P|) <= MaxTurnaround(qs, |P|)
  {
    var worst := MaxTurnaround(ps, |P|);
    if worst > 0 {
      var i :| 0 <= i < |P| && Turnaround(ps[i]) == worst;
      var m := SomebodyWaitsAsLong(P, i, a, b);
      PlayedStatic(P[i], a, |a|);
      PlayedStatic(P[m], b, |b|);
      assert Turnaround(qs[m]) <= MaxTurnaround(qs, |P|);
    }
  }
}
