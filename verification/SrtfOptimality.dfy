/** SRTF minimises total waiting among all accepted runs of all schedulers. */
module SrtfOptimality {
  import opened Processes
  import opened Engine
  import opened Timelines
  import opened LittlesLaw
  import opened WorkConservation
  import opened Selection

  // The argument compares, tick by tick and for every `k`, the work left after setting aside
  // the `k` longest remaining times: no schedule lowers it faster than SRTF.

  function Min(a: int, b: int): int { if a <= b then a else b }

  function Positive(w: seq<nat>): (c: nat)
    ensures c <= |w|
  {
    if w == [] then 0 else Positive(w[..|w| - 1]) + (if w[|w| - 1] > 0 then 1 else 0)
  }

  /** The least total left in `w` once up to `k` of its entries are set aside. */
  function Tail(w: seq<nat>, k: nat): (r: nat)
    ensures r == 0 <==> Positive(w) <= k
  {
    if w == [] then 0
    else
      var x, rest := w[|w| - 1], w[..|w| - 1];
      if k == 0 then Tail(rest, 0) + x else Min(Tail(rest, k) + x, Tail(rest, k - 1))
  }

  /** Running any one of them for a tick lowers every tail by at most 1. */
  lemma {:induction false} TailDropsByAtMostOne(w: seq<nat>, i: nat, k: nat)
    requires i < |w| && w[i] > 0
    ensures Tail(w[i := w[i] - 1], k) >= Tail(w, k) - 1
    ensures Tail(w[i := w[i] - 1], k) <= Tail(w, k)
  {
    var rest := w[..|w| - 1];
    var w' := w[i := w[i] - 1];
    if i == |w| - 1 {
      assert w'[..|w| - 1] == rest;
    } else {
      assert w'[..|w| - 1] == rest[i := rest[i] - 1];
      TailDropsByAtMostOne(rest, i, k);
      if k > 0 { TailDropsByAtMostOne(rest, i, k - 1); }
    }
  }

  /** With more than `k` entries positive and none of them below `x`, one entry fewer set
      aside leaves at least `x` more. */
  lemma {:induction false} TailGap(w: seq<nat>, k: nat, x: nat)
    requires k > 0 && Positive(w) >= k && forall j :: 0 <= j < |w| && w[j] > 0 ==> w[j] >= x
    ensures Tail(w, k - 1) >= Tail(w, k) + x
  {
    var rest := w[..|w| - 1];
    var y := w[|w| - 1];
    if Positive(rest) >= k { TailGap(rest, k, x); }
    if k > 1 && Positive(rest) >= k - 1 { TailGap(rest, k - 1, x); }
  }

  /** Setting aside all but one of the positive entries leaves at most that one. */
  lemma {:induction false} TailAtMost(w: seq<nat>, k: nat, i: nat)
    requires i < |w| && 0 < k && Positive(w) <= k && w[i] > 0
    ensures Tail(w, k - 1) <= w[i]
  {
    var rest, y := w[..|w| - 1], w[|w| - 1];
    if i < |w| - 1 {
      assert rest[i] == w[i];
      PositiveAt(rest, i);
      if y == 0 || k == 1 { TailAtMost(rest, k, i); } else { TailAtMost(rest, k - 1, i); }
    }
  }

  lemma {:induction false} PositiveAt(w: seq<nat>, i: nat)
    requires i < |w| && w[i] > 0
    ensures Positive(w) > 0
  {
    if i < |w| - 1 { PositiveAt(w[..|w| - 1], i); }
  }

  function Less1(x: nat): nat { if x == 0 then 0 else x - 1 }

  lemma TailSnoc(rest: seq<nat>, y: nat, k: nat)
    ensures Tail(rest + [y], k) == (if k == 0 then Tail(rest, 0) + y else Min(Tail(rest, k) + y, Tail(rest, k - 1)))
    ensures Positive(rest + [y]) == Positive(rest) + (if y > 0 then 1 else 0)
  {
    assert (rest + [y])[..|rest|] == rest;
  }

  lemma ShortestLast(rest: seq<nat>, y: nat, k: nat)
    requires y > 0 && forall j :: 0 <= j < |rest| && rest[j] > 0 ==> y <= rest[j]
    ensures Tail(rest + [y - 1], k) == Less1(Tail(rest + [y], k))
  {
    TailSnoc(rest, y, k);
    TailSnoc(rest, y - 1, k);
    if k > 0 && Positive(rest) >= k { TailGap(rest, k, y); }
  }

  lemma ShortestBefore(rest: seq<nat>, rest': seq<nat>, y: nat, i: nat, k: nat)
    requires i < |rest| && rest[i] > 0 && (y > 0 ==> rest[i] <= y)
    requires Tail(rest', k) == Less1(Tail(rest, k))
    requires k > 0 ==> Tail(rest', k - 1) == Less1(Tail(rest, k - 1))
    ensures Tail(rest' + [y], k) == Less1(Tail(rest + [y], k))
  {
    TailSnoc(rest, y, k);
    TailSnoc(rest', y, k);
    PositiveAt(rest, i);
    if k > 0 && Positive(rest) <= k { TailAtMost(rest, k, i); }
  }

  /** Running a shortest one lowers every positive tail by exactly 1. */
  lemma {:induction false} ShortestLowersTail(w: seq<nat>, i: nat, k: nat)
    requires i < |w| && w[i] > 0
    requires forall j :: 0 <= j < |w| && w[j] > 0 ==> w[i] <= w[j]
    ensures Tail(w[i := w[i] - 1], k) == Less1(Tail(w, k))
  {
    var rest, y := w[..|w| - 1], w[|w| - 1];
    assert w == rest + [y];
    if i == |w| - 1 {
      assert w[i := w[i] - 1] == rest + [y - 1];
      ShortestLast(rest, y, k);
    } else {
      assert w[i := w[i] - 1] == rest[i := rest[i] - 1] + [y];
      ShortestLowersTail(rest, i, k);
      if k > 0 { ShortestLowersTail(rest, i, k - 1); }
      ShortestBefore(rest, rest[i := rest[i] - 1], y, i, k);
    }
  }

  function Left(P: Table, tl: seq<int>, t: nat, i: nat): nat
    requires t <= |tl| && i < |P|
  {
    var r := Played(P[i], tl, t).remaining;
    if r < 0 then 0 else r
  }

  /** What is left of the first `m` processes after `t` ticks. */
  function Work(P: Table, tl: seq<int>, t: nat, m: nat): (w: seq<nat>)
    requires t <= |tl| && m <= |P|
    ensures |w| == m
    ensures forall i :: 0 <= i < m ==> w[i] == Left(P, tl, t, i)
  {
    seq(m, i requires 0 <= i < m => Left(P, tl, t, i))
  }

  /** Whatever is set aside, `wa` has no more left than `wb`. */
  ghost predicate Below(wa: seq<nat>, wb: seq<nat>) {
    forall k: nat :: Tail(wa, k) <= Tail(wb, k)
  }

  ghost predicate Dominates(P: Table, a: seq<int>, b: seq<int>, t: nat, m: nat)
    requires t <= |a| && t <= |b| && m <= |P|
  {
    Below(Work(P, a, t, m), Work(P, b, t, m))
  }

  /** Each tick goes to a process with the least remaining time, and none is wasted. */
  ghost predicate ShortestFirstTick(P: Table, tl: seq<int>, t: nat)
    requires t < |tl|
  {
    && ConservingTick(P, tl, t)
    && (tl[t] != IDLE && IndexOf(P, tl[t]) >= 0 ==>
          forall j :: 0 <= j < |P| && ActiveAt(P, tl, j, t) ==>
            Played(P[IndexOf(P, tl[t])], tl, t).remaining <= Played(P[j], tl, t).remaining)
  }

  ghost predicate ShortestFirst(P: Table, tl: seq<int>) {
    forall t :: 0 <= t < |tl| ==> ShortestFirstTick(P, tl, t)
  }

  /** A legal tick takes one unit from one arrived process, or nothing. */
  lemma WorkStep(P: Table, tl: seq<int>, t: nat, m: nat)
    requires Fresh(P) && Legal(P, tl) && t < |tl| && m == Arrived(P, t)
    ensures tl[t] == IDLE ==> Work(P, tl, t + 1, m) == Work(P, tl, t, m)
    ensures tl[t] != IDLE ==>
              var i := IndexOf(P, tl[t]); var w := Work(P, tl, t, m);
              0 <= i < m && w[i] > 0 && Work(P, tl, t + 1, m) == w[i := w[i] - 1]
  {
    assert LegalTick(P, tl, t);
    var i := IndexOf(P, tl[t]);
    if tl[t] != IDLE {
      PlayedStatic(P[i], tl, t);
      ArrivedIff(P, t, i);
    }
    forall j | 0 <= j < m
      ensures Left(P, tl, t + 1, j) == Left(P, tl, t, j) - (if tl[t] != IDLE && j == i then 1 else 0)
    {
      IndexOfOwn(P, j);
      Books(P, tl, j, t);
    }
  }

  /** Executing keeps the dominance: the other side lowers each tail by at most 1, and the
      shortest-first side by exactly 1 while there is anything in it. */
  lemma ExecutionKeeps(P: Table, a: seq<int>, b: seq<int>, t: nat)
    requires Fresh(P) && Legal(P, a) && Legal(P, b) && t < |a| && t < |b|
    requires ShortestFirst(P, a) && Dominates(P, a, b, t, Arrived(P, t))
    ensures Dominates(P, a, b, t + 1, Arrived(P, t))
  {
    var m := Arrived(P, t);
    var wa, wb := Work(P, a, t, m), Work(P, b, t, m);
    var wa', wb' := Work(P, a, t + 1, m), Work(P, b, t + 1, m);
    WorkStep(P, b, t, m);
    forall k: nat
      ensures Tail(wa', k) <= Tail(wb', k)
    {
      assert Tail(wa, k) <= Tail(wb, k);
      if b[t] != IDLE { TailDropsByAtMostOne(wb, IndexOf(P, b[t]), k); }
      ShortestFirstDrops(P, a, t, k);
    }
  }

  lemma ShortestFirstDrops(P: Table, a: seq<int>, t: nat, k: nat)
    requires Fresh(P) && Legal(P, a) && t < |a| && ShortestFirst(P, a)
    ensures Tail(Work(P, a, t + 1, Arrived(P, t)), k) == Less1(Tail(Work(P, a, t, Arrived(P, t)), k))
  {
    var m := Arrived(P, t);
    var w := Work(P, a, t, m);
    WorkStep(P, a, t, m);
    ShortestIsLeast(P, a, t);
    if a[t] == IDLE {
      NonePositive(w);
    } else {
      ShortestLowersTail(w, IndexOf(P, a[t]), k);
    }
  }

  /** A shortest-first tick, read on the work vector. */
  lemma ShortestIsLeast(P: Table, a: seq<int>, t: nat)
    requires Fresh(P) && Legal(P, a) && t < |a| && ShortestFirst(P, a)
    ensures var w := Work(P, a, t, Arrived(P, t)); var i := IndexOf(P, a[t]);
            if a[t] == IDLE then forall j :: 0 <= j < |w| ==> w[j] == 0
            else 0 <= i < |w| && w[i] > 0 && forall j :: 0 <= j < |w| && w[j] > 0 ==> w[i] <= w[j]
  {
    var m, i := Arrived(P, t), IndexOf(P, a[t]);
    var w := Work(P, a, t, m);
    WorkStep(P, a, t, m);
    assert ShortestFirstTick(P, a, t) && ConservingTick(P, a, t);
    forall j | 0 <= j < m
      ensures w[j] > 0 <==> ActiveAt(P, a, j, t)
    {
      ArrivedIff(P, t, j);
      PlayedStatic(P[j], a, t);
    }
  }

  lemma {:induction false} NonePositive(w: seq<nat>)
    requires forall j :: 0 <= j < |w| ==> w[j] == 0
    ensures Positive(w) == 0
  {
    if w != [] { NonePositive(w[..|w| - 1]); }
  }

  /** An arrival brings its whole burst to both sides, and keeps the dominance. */
  lemma {:induction false} ArrivalsKeep(P: Table, a: seq<int>, b: seq<int>, t: nat, m: nat, m': nat)
    requires Fresh(P) && Legal(P, a) && Legal(P, b) && t <= |a| && t <= |b| && m <= m' <= |P|
    requires forall i :: m <= i < m' ==> P[i].arrival >= t
    requires Dominates(P, a, b, t, m)
    ensures Dominates(P, a, b, t, m')
    decreases m' - m
  {
    if m < m' {
      ArrivalKeeps(P, a, b, t, m, m + 1);
      ArrivalsKeep(P, a, b, t, m + 1, m');
    }
  }

  lemma ArrivalKeeps(P: Table, a: seq<int>, b: seq<int>, t: nat, m: nat, next: nat)
    requires Fresh(P) && Legal(P, a) && Legal(P, b) && t <= |a| && t <= |b| && next == m + 1 <= |P|
    requires P[m].arrival >= t && Dominates(P, a, b, t, m)
    ensures Dominates(P, a, b, t, next)
  {
    UntouchedLeft(P, a, t, m);
    UntouchedLeft(P, b, t, m);
    BelowSnoc(Work(P, a, t, m), Work(P, b, t, m), P[m].burst);
  }

  lemma UntouchedLeft(P: Table, tl: seq<int>, t: nat, i: nat)
    requires Fresh(P) && Legal(P, tl) && t <= |tl| && i < |P| && P[i].arrival >= t
    ensures Left(P, tl, t, i) == P[i].burst
    ensures Work(P, tl, t, i + 1) == Work(P, tl, t, i) + [P[i].burst]
  {
    Books(P, tl, i, t);
  }

  lemma BelowSnoc(wa: seq<nat>, wb: seq<nat>, x: nat)
    requires Below(wa, wb)
    ensures Below(wa + [x], wb + [x])
  {
    forall k: nat
      ensures Tail(wa + [x], k) <= Tail(wb + [x], k)
    {
      TailSnoc(wa, x, k);
      TailSnoc(wb, x, k);
    }
  }

  /** At every tick, whatever is set aside, shortest-first has the least left. */
  lemma {:induction false} ShortestFirstDominates(P: Table, a: seq<int>, b: seq<int>, t: nat)
    requires Fresh(P) && Legal(P, a) && Legal(P, b) && t <= |a| && t <= |b| && ShortestFirst(P, a)
    ensures Dominates(P, a, b, t, Arrived(P, t))
  {
    if t == 0 {
      FirstArrivals(P, a, b);
    } else {
      ShortestFirstDominates(P, a, b, t - 1);
      TickKeeps(P, a, b, t - 1, t);
    }
  }

  lemma FirstArrivals(P: Table, a: seq<int>, b: seq<int>)
    requires Fresh(P) && Legal(P, a) && Legal(P, b)
    ensures Dominates(P, a, b, 0, Arrived(P, 0))
  {
    NothingBelowNothing(P, a, b);
    ArrivalsKeep(P, a, b, 0, 0, Arrived(P, 0));
  }

  lemma TickKeeps(P: Table, a: seq<int>, b: seq<int>, t: nat, next: nat)
    requires Fresh(P) && Legal(P, a) && Legal(P, b) && next == t + 1 <= |a| && next <= |b|
    requires ShortestFirst(P, a) && Dominates(P, a, b, t, Arrived(P, t))
    ensures Dominates(P, a, b, next, Arrived(P, next))
  {
    NextArrivals(P, next);
    ExecutionKeeps(P, a, b, t);
    ArrivalsKeep(P, a, b, next, Arrived(P, t), Arrived(P, next));
  }

  lemma NothingBelowNothing(P: Table, a: seq<int>, b: seq<int>)
    ensures Dominates(P, a, b, 0, 0)
  {
  }

  lemma NextArrivals(P: Table, t: nat)
    requires Sorted(P) && t > 0
    ensures Arrived(P, t - 1) <= Arrived(P, t)
    ensures forall i :: Arrived(P, t - 1) <= i < Arrived(P, t) ==> P[i].arrival >= t
  {
    ArrivedMonotone(P, t - 1, t);
    forall i | Arrived(P, t - 1) <= i < Arrived(P, t) ensures P[i].arrival >= t { ArrivedIff(P, t - 1, i); }
  }

  lemma {:induction false} ActiveIsPositive(P: Table, tl: seq<int>, t: nat, m: nat)
    requires Sorted(P) && t <= |tl| && m <= |P|
    ensures ActiveCount(P, tl, t, m) == Positive(Work(P, tl, t, if m < Arrived(P, t) then m else Arrived(P, t)))
  {
    if m > 0 {
      ActiveIsPositive(P, tl, t, m - 1);
      ActiveIsLeft(P, tl, t, m - 1);
      if m <= Arrived(P, t) {
        assert Work(P, tl, t, m) == Work(P, tl, t, m - 1) + [Left(P, tl, t, m - 1)];
        TailSnoc(Work(P, tl, t, m - 1), Left(P, tl, t, m - 1), 0);
      }
    }
  }

  lemma ActiveIsLeft(P: Table, tl: seq<int>, t: nat, i: nat)
    requires Sorted(P) && t <= |tl| && i < |P|
    ensures ActiveAt(P, tl, i, t) <==> i < Arrived(P, t) && Left(P, tl, t, i) > 0
  {
    ArrivedIff(P, t, i);
    PlayedStatic(P[i], tl, t);
  }

  /** At no tick does shortest-first have more unfinished processes than anybody else. */
  lemma FewestUnfinished(P: Table, a: seq<int>, b: seq<int>, t: nat)
    requires Fresh(P) && Legal(P, a) && Legal(P, b) && t <= |a| && t <= |b| && ShortestFirst(P, a)
    ensures ActiveCount(P, a, t, |P|) <= ActiveCount(P, b, t, |P|)
  {
    ShortestFirstDominates(P, a, b, t);
    ActiveIsPositive(P, a, t, |P|);
    ActiveIsPositive(P, b, t, |P|);
    var wb := Work(P, b, t, Arrived(P, t));
    assert Tail(wb, Positive(wb)) == 0;
    assert Tail(Work(P, a, t, Arrived(P, t)), Positive(wb)) == 0;
  }

  lemma {:induction false} LeastArea(P: Table, a: seq<int>, b: seq<int>, t: nat, u: nat)
    requires Fresh(P) && Legal(P, a) && Legal(P, b) && t <= |a| && t <= u <= |b| && ShortestFirst(P, a)
    ensures ActiveArea(P, a, t) <= ActiveArea(P, b, u)
    decreases u
  {
    if t < u {
      LeastArea(P, a, b, t, u - 1);
    } else if t > 0 {
      LeastArea(P, a, b, t - 1, u - 1);
      FewestUnfinished(P, a, b, t - 1);
    }
  }

  /** SRTF's runs are shortest-first. */
  lemma {:induction false} SrtfIsShortestFirst(P: Table, t: nat, s: Sim<int>)
    requires Fresh(P) && After(Srtf(), P, t) == Some(s)
    ensures ShortestFirst(P, s.timeline)
  {
    if t > 0 {
      var r := SrtfState(P, t - 1);
      SrtfIsShortestFirst(P, t - 1, r);
      Stepwise(Srtf(), P, t - 1, r, s);
      SrtfStep(P, r, s);
    }
  }

  lemma SrtfStep(P: Table, r: Sim<int>, s: Sim<int>)
    requires Fresh(P) && ShortestFirst(P, r.timeline) && PlayedTable(P, r.timeline, |r.timeline|, r.procs)
    requires RunsOn(r.st, r.procs, |r.timeline|) && Step(Srtf(), r) == Some(s)
    ensures ShortestFirst(P, s.timeline)
  {
    SrtfExtends(P, r);
    StepRecords(Srtf(), r, s);
  }

  lemma SrtfState(P: Table, t: nat) returns (s: Sim<int>)
    requires Fresh(P)
    ensures After(Srtf(), P, t) == Some(s) && |s.timeline| == t
    ensures PlayedTable(P, s.timeline, t, s.procs) && RunsOn(s.st, s.procs, t)
  {
    PreemptiveConserves(ByRemaining, P);
    assert HoldsAt(Srtf(), P, RunsOnInv(), t);
    s := After(Srtf(), P, t).value;
    Ledger(Srtf(), P, t);
  }

  lemma StepRecords<S>(sc: Scheduler<S>, s: Sim<S>, s': Sim<S>)
    requires Step(sc, s) == Some(s')
    ensures s'.timeline == s.timeline + [Choice(sc, s).1]
  {
  }

  lemma SrtfExtends(P: Table, s: Sim<int>)
    requires Fresh(P) && ShortestFirst(P, s.timeline) && PlayedTable(P, s.timeline, |s.timeline|, s.procs)
    requires RunsOn(s.st, s.procs, |s.timeline|)
    ensures ShortestFirst(P, s.timeline + [Choice(Srtf(), s).1])
  {
    SrtfChoice(s);
    ShortestFirstExtends(P, s.timeline, s.procs, Contend(s.procs, |s.timeline|, ByRemaining, s.st));
  }

  lemma SrtfChoice(s: Sim<int>)
    requires RunsOn(s.st, s.procs, |s.timeline|)
    ensures var b := Contend(s.procs, |s.timeline|, ByRemaining, s.st);
            && Choice(Srtf(), s) == (PidAt(s.procs, b), PidAt(s.procs, b))
            && IncumbentArrived(s.procs, |s.timeline|, s.st)
  {
    ScanAdmits(ByRemaining, s.st, s.procs, |s.timeline|, |s.procs|);
  }

  lemma ShortestFirstExtends(P: Table, tl: seq<int>, ps: Table, b: int)
    requires Fresh(P) && ShortestFirst(P, tl) && PlayedTable(P, tl, |tl|, ps) && -1 <= b < |ps|
    requires b == -1 ==> forall i :: 0 <= i < |ps| ==> !Active(ps[i], |tl|)
    requires b >= 0 ==> forall i :: 0 <= i < |ps| && Active(ps[i], |tl|) ==> ps[b].remaining <= ps[i].remaining
    ensures ShortestFirst(P, tl + [PidAt(ps, b)])
  {
    var ext := tl + [PidAt(ps, b)];
    if b >= 0 {
      PlayedStatic(P[b], tl, |tl|);
      IndexOfOwn(P, b);
    }
    forall t | 0 <= t < |ext|
      ensures ShortestFirstTick(P, ext, t)
    {
      forall i | 0 <= i < |P|
        ensures Played(P[i], ext, t) == Played(P[i], tl, t)
        ensures ActiveAt(P, ext, i, t) == ActiveAt(P, tl, i, t)
      {
        PlayedPrefix(P[i], ext, tl, t);
      }
      if t < |tl| {
        assert ShortestFirstTick(P, tl, t) && ConservingTick(P, tl, t);
      } else {
        assert forall i :: 0 <= i < |P| ==> ActiveAt(P, tl, i, t) == Active(ps[i], t);
      }
    }
  }

  /** Whatever the engine accepts, from any scheduler, it also accepts SRTF's run of the same
      table, and SRTF's total waiting and total turnaround are no larger. */
  lemma {:induction false} SrtfMinimisesWaiting<S>(sc: Scheduler<S>, P: Table)
    requires Fresh(P) && Run(sc, P).Some?
    ensures Run(Srtf(), P).Some?
    ensures TotalWaiting(Run(Srtf(), P).value.procs, |P|) <= TotalWaiting(Run(sc, P).value.procs, |P|)
    ensures TotalTurnaround(Run(Srtf(), P).value.procs, |P|) <= TotalTurnaround(Run(sc, P).value.procs, |P|)
  {
    NoRunIsShorter(sc, P);
    PreemptiveConserves(ByRemaining, P);
    Outcome(Srtf(), P);
    AcceptedRun(sc, P);
    AcceptedRun(Srtf(), P);
    var a, b := Run(Srtf(), P).value, Run(sc, P).value;
    RunIffStops(Srtf(), P);
    SrtfIsShortestFirst(P, |a.timeline|, a);
    LeastArea(P, a.timeline, b.timeline, |a.timeline|, |b.timeline|);
    AreaLaw(P, a.timeline, a.procs);
    AreaLaw(P, b.timeline, b.procs);
  }
}
