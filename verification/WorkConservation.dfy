/** Work conservation: when the CPU is busy depends on the table, not on the policy. */
module WorkConservation {
  import opened Processes
  import opened Engine
  import opened Timelines

  /** A tick is left idle only when nobody could have used it. */
  ghost predicate ConservingTick(P: Table, tl: seq<int>, t: nat)
    requires t < |tl|
  {
    tl[t] == IDLE ==> forall i :: 0 <= i < |P| ==> !ActiveAt(P, tl, i, t)
  }

  ghost predicate Conserving(P: Table, tl: seq<int>) {
    forall t :: 0 <= t < |tl| ==> ConservingTick(P, tl, t)
  }

  ghost predicate GoodRun<S>(sc: Scheduler<S>, P: Table, t: nat) {
    After(sc, P, t).Some? && Conserving(P, After(sc, P, t).value.timeline)
  }

  /** The scheduler never fails a guard and never wastes a tick, however long it runs. */
  ghost predicate WorkConservingOn<S>(sc: Scheduler<S>, P: Table) {
    forall t: nat :: GoodRun(sc, P, t)
  }

  /** How many processes have arrived by tick `t`. */
  function ArrivedFrom(P: Table, t: int, k: nat): (m: nat)
    requires k <= |P|
    ensures k <= m <= |P|
    ensures forall i :: k <= i < m ==> P[i].arrival <= t
    ensures m < |P| ==> P[m].arrival > t
    decreases |P| - k
  {
    if k == |P| || P[k].arrival > t then k else ArrivedFrom(P, t, k + 1)
  }

  function Arrived(P: Table, t: int): (m: nat)
    ensures m <= |P|
  {
    ArrivedFrom(P, t, 0)
  }

  lemma ArrivedIff(P: Table, t: int, i: nat)
    requires Sorted(P) && i < |P|
    ensures P[i].arrival <= t <==> i < Arrived(P, t)
  {
    var m := Arrived(P, t);
    if m < i { assert Before(P[m], P[i]); }
  }

  /** The work that has arrived by tick `t`, executed or not. */
  function ArrivedWork(P: Table, t: int): int {
    SumBurst(P, Arrived(P, t))
  }

  /** Busy ticks among the first `t` when no tick is wasted. */
  function BusyBy(P: Table, t: nat): nat {
    if t == 0 then 0
    else BusyBy(P, t - 1) + (if BusyBy(P, t - 1) < ArrivedWork(P, t - 1) then 1 else 0)
  }

  /** When the first of the remaining arrivals finds the CPU free at `e`, the last tick of
      work is reached by serving the rest one after another, in any order. */
  function FinishFrom(P: Table, e: int, k: nat): (r: int)
    requires k <= |P|
    decreases |P| - k
  {
    if k == |P| then e
    else FinishFrom(P, (if e < P[k].arrival then P[k].arrival else e) + P[k].burst, k + 1)
  }

  /** The length of every work-conserving run of the table. */
  function Makespan(P: Table): int { FinishFrom(P, 0, 0) }

  lemma {:induction false} FinishBounds(P: Table, e: int, k: nat)
    requires Fresh(P) && k <= |P|
    ensures FinishFrom(P, e, k) >= e + SumBurst(P, |P|) - SumBurst(P, k)
    ensures SumBurst(P, |P|) - SumBurst(P, k) >= |P| - k
    decreases |P| - k
  {
    if k < |P| {
      FinishBounds(P, (if e < P[k].arrival then P[k].arrival else e) + P[k].burst, k + 1);
    }
  }

  lemma {:induction false} FinishAtMost(P: Table, e: int, k: nat)
    requires Fresh(P) && k <= |P| && |P| > 0 && (k > 0 ==> e <= P[|P| - 1].arrival + SumBurst(P, k))
    requires k == 0 ==> e <= 0
    ensures FinishFrom(P, e, k) <= P[|P| - 1].arrival + SumBurst(P, |P|)
    decreases |P| - k
  {
    if k < |P| {
      if k < |P| - 1 { assert Before(P[k], P[|P| - 1]); }
      SumBurstPositive(P, k);
      FinishAtMost(P, (if e < P[k].arrival then P[k].arrival else e) + P[k].burst, k + 1);
    }
  }

  lemma {:induction false} SumBurstPositive(P: Table, k: nat)
    requires Fresh(P) && k <= |P|
    ensures SumBurst(P, k) >= k
  {
    if k > 0 { SumBurstPositive(P, k - 1); }
  }

  lemma {:induction false} SumBurstMonotone(P: Table, j: nat, k: nat)
    requires Fresh(P) && j <= k <= |P|
    ensures SumBurst(P, j) + (k - j) <= SumBurst(P, k)
  {
    if j < k { SumBurstMonotone(P, j, k - 1); }
  }

  /** Arrivals that find the CPU still busy only add their bursts. */
  lemma {:induction false} FinishAbsorbs(P: Table, e: int, k: nat, m: nat)
    requires k <= m <= |P| && forall i :: k <= i < m ==> P[i].arrival <= e && 0 <= P[i].burst
    ensures FinishFrom(P, e, k) == FinishFrom(P, e + SumBurst(P, m) - SumBurst(P, k), m)
    decreases m - k
  {
    if k < m { FinishAbsorbs(P, e + P[k].burst, k + 1, m); }
  }

  lemma ArrivedMonotone(P: Table, t: int, u: int)
    requires Sorted(P) && t <= u
    ensures Arrived(P, t) <= Arrived(P, u)
  {
    var m := Arrived(P, t);
    if m > 0 { ArrivedIff(P, t, m - 1); ArrivedIff(P, u, m - 1); }
  }

  lemma {:induction false} BusyBounded(P: Table, t: nat)
    requires Fresh(P)
    ensures BusyBy(P, t) <= ArrivedWork(P, t)
  {
    ArrivedMonotone(P, t - 1, t);
    if t == 0 {
      SumBurstPositive(P, Arrived(P, 0));
    } else {
      SumBurstMonotone(P, Arrived(P, t - 1), Arrived(P, t));
      BusyBounded(P, t - 1);
    }
  }

  /** The finish time seen from tick `t`, with `busy` done of the work of the first `m`, is
      the one seen at the start. */
  ghost predicate OnCourse(P: Table, t: nat, busy: int, m: nat)
    requires m <= |P|
  {
    busy <= SumBurst(P, m) && FinishFrom(P, t + SumBurst(P, m) - busy, m) == Makespan(P)
  }

  /** It stays so until the work runs out. */
  lemma {:induction false} FinishInvariant(P: Table, t: nat)
    requires Fresh(P) && (t > 0 ==> BusyBy(P, t - 1) < SumBurst(P, |P|))
    ensures OnCourse(P, t, BusyBy(P, t), Arrived(P, t))
  {
    BusyBounded(P, t);
    if t == 0 {
      FinishAbsorbs(P, 0, 0, Arrived(P, 0));
    } else {
      if t > 1 { assert BusyBy(P, t - 2) <= BusyBy(P, t - 1); }
      FinishInvariant(P, t - 1);
      FinishStep(P, t - 1, t, BusyBy(P, t - 1), BusyBy(P, t), Arrived(P, t - 1), Arrived(P, t));
    }
  }

  lemma FinishStep(P: Table, t: nat, next: nat, busy: int, busy': int, m: nat, m': nat)
    requires Fresh(P) && next == t + 1 && m == Arrived(P, t) && m' == Arrived(P, next)
    requires busy < SumBurst(P, |P|) && busy' == busy + (if busy < SumBurst(P, m) then 1 else 0)
    requires OnCourse(P, t, busy, m)
    ensures OnCourse(P, next, busy', m')
  {
    ArrivedMonotone(P, t, next);
    SumBurstMonotone(P, m, m');
    FinishTick(P, t, SumBurst(P, m) - busy, m, m');
  }

  /** One tick with `backlog` work in hand, then the arrivals from `m` to `m'`. */
  lemma FinishTick(P: Table, t: nat, backlog: nat, m: nat, m': nat)
    requires Fresh(P) && m <= m' <= |P| && forall i :: m <= i < m' ==> P[i].arrival <= t + 1
    requires backlog == 0 ==> m < |P| && P[m].arrival >= t + 1
    ensures var left := if backlog > 0 then backlog - 1 else 0;
            FinishFrom(P, t + backlog, m) == FinishFrom(P, t + 1 + left + SumBurst(P, m') - SumBurst(P, m), m')
  {
    var e := if backlog > 0 then t + backlog else t + 1;
    assert FinishFrom(P, t + backlog, m) == FinishFrom(P, e, m);
    FinishAbsorbs(P, e, m, m');
  }

  /** The work runs out at tick `Makespan(P)` and not before. */
  lemma {:induction false} BusyUntilMakespan(P: Table, t: nat)
    requires Fresh(P)
    ensures t < Makespan(P) ==> BusyBy(P, t) < SumBurst(P, |P|)
    ensures t >= Makespan(P) ==> BusyBy(P, t) == SumBurst(P, |P|)
  {
    if t > 0 { BusyUntilMakespan(P, t - 1); }
    BusyBounded(P, t);
    if t > 0 && t - 1 >= Makespan(P) {
      SumBurstMonotone(P, Arrived(P, t), |P|);
    } else {
      FinishInvariant(P, t);
      WorkAgainstFinish(P, t, BusyBy(P, t), Arrived(P, t));
    }
  }

  /** With `busy` done of the work of the first `m`, the rest is finished only after now. */
  lemma WorkAgainstFinish(P: Table, t: nat, busy: int, m: nat)
    requires Fresh(P) && m <= |P| && OnCourse(P, t, busy, m)
    requires m < |P| ==> P[m].arrival > t
    ensures busy <= SumBurst(P, |P|)
    ensures t < Makespan(P) <==> busy < SumBurst(P, |P|)
  {
    SumBurstMonotone(P, m, |P|);
    FinishBounds(P, t + SumBurst(P, m) - busy, m);
  }

  /** Of the work arrived by tick `t`, what is left belongs to the active processes. */
  lemma {:induction false} BacklogIs(P: Table, tl: seq<int>, t: nat, k: nat)
    requires Fresh(P) && Legal(P, tl) && t <= |tl| && k <= |P|
    ensures SumTicks(P, tl, t, k) <= SumBurst(P, if k < Arrived(P, t) then k else Arrived(P, t))
    ensures SumTicks(P, tl, t, k) == SumBurst(P, if k < Arrived(P, t) then k else Arrived(P, t))
       <==> forall i :: 0 <= i < k ==> !ActiveAt(P, tl, i, t)
  {
    if k > 0 {
      BacklogIs(P, tl, t, k - 1);
      Books(P, tl, k - 1, t);
      PlayedStatic(P[k - 1], tl, t);
      ArrivedIff(P, t, k - 1);
      assert ActiveAt(P, tl, k - 1, t) <==> k - 1 < Arrived(P, t) && TicksOf(tl, P[k - 1].pid, t) < P[k - 1].burst;
      if !ActiveAt(P, tl, k - 1, t) {
        assert (forall i :: 0 <= i < k ==> !ActiveAt(P, tl, i, t)) <==> forall i :: 0 <= i < k - 1 ==>
               !ActiveAt(P, tl, i, t);
      }
    }
  }

  /** A work-conserving run is busy exactly when the policy-free count says so. */
  /** Of the work that arrived before tick `t`, what is left belongs to processes that did. */
  lemma {:induction false} EarlierBacklogIs(P: Table, tl: seq<int>, t: nat, k: nat)
    requires Fresh(P) && Legal(P, tl) && t <= |tl| && k <= |P|
    ensures var m := Arrived(P, t - 1);
            && SumTicks(P, tl, t, k) <= SumBurst(P, if k < m then k else m)
            && (SumTicks(P, tl, t, k) == SumBurst(P, if k < m then k else m) ==>
                  forall i :: 0 <= i < k && i < m ==> Played(P[i], tl, t).remaining == 0)
  {
    if k > 0 {
      EarlierBacklogIs(P, tl, t, k - 1);
      Books(P, tl, k - 1, t);
      ArrivedIff(P, t - 1, k - 1);
    }
  }

  lemma {:induction false} ConservingBusy(P: Table, tl: seq<int>, t: nat)
    requires Fresh(P) && Legal(P, tl) && Conserving(P, tl) && t <= |tl|
    ensures BusyTicks(tl, t) == BusyBy(P, t)
    ensures t < |tl| ==> (tl[t] == IDLE <==> BusyBy(P, t) == ArrivedWork(P, t))
  {
    if t > 0 { ConservingBusy(P, tl, t - 1); BusyBounded(P, t - 1); }
    if t < |tl| { IdleIsNoBacklog(P, tl, t); }
  }

  lemma IdleIsNoBacklog(P: Table, tl: seq<int>, t: nat)
    requires Fresh(P) && Legal(P, tl) && Conserving(P, tl) && t < |tl|
    ensures tl[t] == IDLE <==> BusyTicks(tl, t) == ArrivedWork(P, t)
  {
    BusyIsExecuted(P, tl, t);
    BacklogIs(P, tl, t, |P|);
    assert LegalTick(P, tl, t) && ConservingTick(P, tl, t);
  }

  /** As tick `t` begins, all that has arrived before it has been executed. */
  predicate NoBacklog(P: Table, t: nat) {
    BusyBy(P, t) == ArrivedWork(P, t - 1)
  }

  lemma NobodyLeft(P: Table, tl: seq<int>, t: nat)
    requires Fresh(P) && Legal(P, tl) && Conserving(P, tl) && t <= |tl| && NoBacklog(P, t)
    ensures forall i :: 0 <= i < |P| && P[i].arrival < t ==> Played(P[i], tl, t).remaining == 0
  {
    ConservingBusy(P, tl, t);
    BusyIsExecuted(P, tl, t);
    EarlierBacklogIs(P, tl, t, |P|);
    forall i | 0 <= i < |P| && P[i].arrival < t ensures i < Arrived(P, t - 1) { ArrivedIff(P, t - 1, i); }
  }

  /** Everything has been done once the executed ticks equal the sum of the bursts. */
  lemma {:induction false} DoneBySum(P: Table, tl: seq<int>, t: nat, k: nat)
    requires Fresh(P) && Legal(P, tl) && t <= |tl| && k <= |P|
    ensures SumTicks(P, tl, t, k) <= SumBurst(P, k)
    ensures SumTicks(P, tl, t, k) == SumBurst(P, k) <==> forall i :: 0 <= i < k ==> Played(P[i], tl, t).remaining == 0
  {
    if k > 0 {
      DoneBySum(P, tl, t, k - 1);
      Books(P, tl, k - 1, t);
    }
  }

  /** No legal timeline, wasteful or not, is ever ahead of the work-conserving one. */
  lemma {:induction false} NobodyIsBusier(P: Table, tl: seq<int>, t: nat)
    requires Fresh(P) && Legal(P, tl) && t <= |tl|
    ensures BusyTicks(tl, t) <= BusyBy(P, t)
  {
    if t > 0 {
      NobodyIsBusier(P, tl, t - 1);
      BusyIsExecuted(P, tl, t - 1);
      BacklogIs(P, tl, t - 1, |P|);
      assert LegalTick(P, tl, t - 1);
    }
  }

  /** No accepted run, of any scheduler at all, is shorter than the makespan. */
  lemma NoRunIsShorter<S>(sc: Scheduler<S>, P: Table)
    requires Fresh(P) && Run(sc, P).Some?
    ensures Makespan(P) <= |Run(sc, P).value.timeline| <= MAX_TICKS
  {
    AcceptedRun(sc, P);
    var tl := Run(sc, P).value.timeline;
    NobodyIsBusier(P, tl, |tl|);
    BusyBounded(P, |tl|);
    SumBurstMonotone(P, Arrived(P, |tl|), |P|);
    BusyUntilMakespan(P, |tl|);
  }

  /** A scheduler that never wastes a tick succeeds exactly when the table's makespan fits
      the cap; its run then has that length, and its idle ticks are the table's own. */
  lemma Outcome<S>(sc: Scheduler<S>, P: Table)
    requires Fresh(P) && WorkConservingOn(sc, P)
    ensures Makespan(P) >= 0
    ensures Run(sc, P).Some? <==> Makespan(P) <= MAX_TICKS
    ensures Run(sc, P).Some? ==>
              var tl := Run(sc, P).value.timeline;
              && |tl| == Makespan(P)
              && forall t :: 0 <= t < |tl| ==> (tl[t] == IDLE <==> BusyBy(P, t) == ArrivedWork(P, t))
  {
    FinishBounds(P, 0, 0);
    var T := Makespan(P);
    RunIffStops(sc, P);
    forall t: nat
      ensures After(sc, P, t).Some? && (Running(sc, P, t) <==> t < T)
    {
      RunningUntilMakespan(sc, P, t);
    }
    if T <= MAX_TICKS {
      assert !Running(sc, P, T);
      assert StopsAt(sc, P, T);
      var tl := Run(sc, P).value.timeline;
      assert GoodRun(sc, P, T);
      Ledger(sc, P, T);
      forall t | 0 <= t < |tl|
        ensures tl[t] == IDLE <==> BusyBy(P, t) == ArrivedWork(P, t)
      {
        ConservingBusy(P, tl, t);
      }
    }
    if Run(sc, P).Some? {
      var u := |Run(sc, P).value.timeline|;
      assert !Running(sc, P, u);
    }
  }

  lemma RunningUntilMakespan<S>(sc: Scheduler<S>, P: Table, t: nat)
    requires Fresh(P) && WorkConservingOn(sc, P)
    ensures After(sc, P, t).Some? && (Running(sc, P, t) <==> t < Makespan(P))
  {
    assert GoodRun(sc, P, t);
    Ledger(sc, P, t);
    var s := After(sc, P, t).value;
    ConservingBusy(P, s.timeline, t);
    BusyIsExecuted(P, s.timeline, t);
    DoneBySum(P, s.timeline, t, |P|);
    DoneIff(P, s.timeline, t, s.procs);
    BusyUntilMakespan(P, t);
  }

  /** What one tick must give so that an invariant of scheduler state and table carries a
      work-conserving run forward. */
  ghost predicate GoodTick<S>(sc: Scheduler<S>, inv: (S, Table, int) -> bool, st: S, ps: Table, cur: int, tick: nat) {
    var (st', next) := sc.pickNext(Admit(sc, st, ps, tick, |ps|), ps, cur, tick);
    && (next == IDLE ==> forall i :: 0 <= i < |ps| ==> !Active(ps[i], tick))
    && (next != IDLE ==> Runnable(ps, next, tick))
    && inv(Settle(sc, st', ps, next, tick), Execute(ps, next, tick), tick + 1)
  }

  ghost predicate Carries<S(!new)>(sc: Scheduler<S>, inv: (S, Table, int) -> bool) {
    forall st: S, ps: Table, cur: int, tick: nat ::
      MidRun(ps, tick) && inv(st, ps, tick) ==> GoodTick(sc, inv, st, ps, cur, tick)
  }

  ghost predicate HoldsAt<S>(sc: Scheduler<S>, P: Table, inv: (S, Table, int) -> bool, t: nat) {
    && GoodRun(sc, P, t)
    && var s := After(sc, P, t).value; MidRun(s.procs, t) && inv(s.st, s.procs, t)
  }

  /** The induction rule shared by the nine policies. */
  lemma {:induction false} ByInvariant<S(!new)>(sc: Scheduler<S>, P: Table, inv: (S, Table, int) -> bool, t: nat)
    requires Fresh(P) && inv(sc.init(P), P, 0) && Carries(sc, inv)
    ensures HoldsAt(sc, P, inv, t)
  {
    if t > 0 {
      ByInvariant(sc, P, inv, t - 1);
      var s := After(sc, P, t - 1).value;
      var (st, next) := Choice(sc, s);
      assert GoodTick(sc, inv, s.st, s.procs, s.current, t - 1);
      ExecuteMidRun(s.procs, next, t - 1);
      Ledger(sc, P, t - 1);
      ConservingExtends(P, s.timeline, s.procs, next);
    }
  }

  lemma WorkConservingByInvariant<S(!new)>(sc: Scheduler<S>, P: Table, inv: (S, Table, int) -> bool)
    requires Fresh(P) && inv(sc.init(P), P, 0) && Carries(sc, inv)
    ensures WorkConservingOn(sc, P)
    ensures forall t: nat :: HoldsAt(sc, P, inv, t)
  {
    forall t: nat ensures GoodRun(sc, P, t) && HoldsAt(sc, P, inv, t) { ByInvariant(sc, P, inv, t); }
  }

  lemma ExecuteMidRun(ps: Table, next: int, tick: nat)
    requires MidRun(ps, tick) && (next == IDLE || Runnable(ps, next, tick))
    ensures MidRun(Execute(ps, next, tick), tick + 1)
  {
  }

  lemma ConservingExtends(P: Table, tl: seq<int>, ps: Table, next: int)
    requires Conserving(P, tl) && PlayedTable(P, tl, |tl|, ps)
    requires next == IDLE ==> forall i :: 0 <= i < |ps| ==> !Active(ps[i], |tl|)
    ensures Conserving(P, tl + [next])
  {
    var ext := tl + [next];
    forall t | 0 <= t < |ext|
      ensures ConservingTick(P, ext, t)
    {
      if t < |tl| { assert ConservingTick(P, tl, t); }
      forall i | 0 <= i < |P| && ext[t] == IDLE
        ensures !ActiveAt(P, ext, i, t)
      {
        PlayedPrefix(P[i], ext, tl, t);
        if t == |tl| {
          assert ps[i] == Played(P[i], tl, t);
        } else {
          assert !ActiveAt(P, tl, i, t);
        }
      }
    }
  }
}
