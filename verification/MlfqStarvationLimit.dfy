/** The limit of the starvation bound is exact: it holds for the first 25 slots of a table.

    With 26 processes or more, those after the first 25 can wait behind them for as long as they
    have work, boost after boost: each boost puts the 25 in front again before anybody else's
    turn has come. */
module MlfqStarvationLimit {
  import opened Processes
  import opened Engine
  import opened Timelines
  import opened WorkConservation
  import opened ReadyLists
  import opened MultiQueue
  import opened Mlfq
  import opened MlfqStarvation

  /** At least 26 processes, all there from tick 0, the first 25 with at least `2 * m` ticks. */
  ghost predicate Crowd(P: Table, m: nat) {
    && Indexable(P) && |P| >= 26
    && (forall i :: 0 <= i < |P| ==> P[i].arrival == 0)
    && (forall i :: 0 <= i < 25 ==> P[i].burst >= 2 * m)
  }

  /** The pids from slot `j` on, up to slot `k`. */
  function PidsFrom(ps: Table, j: nat, k: nat): (l: seq<int>)
    requires j <= k <= |ps|
    ensures |l| == k - j
  {
    if j == k then [] else PidsFrom(ps, j, k - 1) + [ps[k - 1].pid]
  }

  lemma {:induction false} PidsFromHead(ps: Table, j: nat, k: nat)
    requires j < k <= |ps|
    ensures PidsFrom(ps, j, k)[0] == ps[j].pid && PidsFrom(ps, j, k)[1..] == PidsFrom(ps, j + 1, k)
  {
    if j < k - 1 {
      PidsFromHead(ps, j, k - 1);
      assert PidsFrom(ps, j, k)[1..] == PidsFrom(ps, j, k - 1)[1..] + [ps[k - 1].pid];
    }
  }

  /** How much of its slice of the present cycle process `i` has had `e` ticks into it. */
  function HadInCycle(i: nat, e: nat): nat {
    if i >= 25 || e <= 2 * i then 0 else if e == 2 * i + 1 then 1 else 2
  }

  /** `e` ticks after boost `k`, or after the start when `k` is 0: the first 25 have had two
      ticks from each boost, and are being served again; nobody else has run at all. */
  ghost predicate CycleWork(ps: Table, k: nat, e: nat) {
    forall i :: 0 <= i < |ps| ==>
      ps[i].arrival == 0 && ps[i].remaining == ps[i].burst - (if i < 25 then 2 * k + HadInCycle(i, e) else 0)
  }

  /** The process in slot `e / 2` is due its first tick, or its second. */
  ghost predicate CycleState(s: State, ps: Table, e: nat) {
    && 26 <= |ps| && 1 <= e <= 50
    && (if e % 2 == 0
        then s.running == IDLE && s.m.q.l0 == PidsFrom(ps, e / 2, |ps|)
        else s.running == ps[e / 2].pid && s.level == 0 && s.left == 1 && s.m.q.l0 == PidsFrom(ps, e / 2 + 1, |ps|))
  }

  ghost predicate InCycle(s: State, ps: Table, k: nat, e: nat) {
    CycleState(s, ps, e) && CycleWork(ps, k, e)
  }

  lemma {:induction false} PidsOfExecuted(ps: Table, next: int, t: int, j: nat, k: nat)
    requires j <= k <= |ps|
    ensures PidsFrom(Execute(ps, next, t), j, k) == PidsFrom(ps, j, k)
  {
    if j < k { PidsOfExecuted(ps, next, t, j, k - 1); }
  }

  lemma {:induction false} NoArrivals(ps: Table, t: int, k: nat)
    requires k <= |ps| && t > 0 && forall i :: 0 <= i < |ps| ==> ps[i].arrival == 0
    ensures ArrivingPids(ps, t, k) == []
  {
    if k > 0 { NoArrivals(ps, t, k - 1); }
  }

  /** A slice's first tick. */
  lemma FirstTick(b: State, ps: Table, t: nat, j: nat)
    requires MidRun(ps, t) && j < |ps| && b.running == ps[j].pid && b.level == 0 && b.left == 2 && ps[j].remaining >= 2
    ensures var s := Settled(b, ps);
            s.running == ps[j].pid && s.level == 0 && s.left == 1 && s.m.q.l0 == b.m.q.l0
  {
    IndexOfOwn(ps, j);
  }

  /** A slice's second tick. */
  lemma SecondTick(b: State, ps: Table, t: nat, j: nat)
    requires MidRun(ps, t) && j < |ps| && b.running == ps[j].pid && b.level == 0 && b.left == 1
    ensures var s := Settled(b, ps); s.running == IDLE && s.m.q.l0 == b.m.q.l0
  {
    IndexOfOwn(ps, j);
  }

  /** One ordinary tick of the cycle. */
  lemma CycleTick(s: State, ps: Table, b: State, t: nat, k: nat, e: nat)
    requires MidRun(ps, t) && InCycle(s, ps, k, e) && e < 50 && forall i :: 0 <= i < 25 ==> ps[i].burst >= 2 * k + 2
    requires SliceOk(s, LEVEL_QUANTUM) && s.m.saved.l0 == 0 && b == Select(s).0
    ensures InCycle(Settled(b, ps), Execute(ps, b.running, t), k, e + 1)
  {
    var j := e / 2;
    SelectAdvances(s);
    if e % 2 == 0 {
      PidsFromHead(ps, j, |ps|);
      FirstTick(b, ps, t, j);
    } else {
      SecondTick(b, ps, t, j);
    }
    CycleWorks(ps, t, k, e, b.running);
    CycleStays(Settled(b, ps), ps, t, e, b.running);
  }

  lemma CycleWorks(ps: Table, t: nat, k: nat, e: nat, next: int)
    requires MidRun(ps, t) && |ps| >= 26 && e < 50 && next == ps[e / 2].pid && CycleWork(ps, k, e)
    ensures CycleWork(Execute(ps, next, t), k, e + 1)
  {
    IndexOfOwn(ps, e / 2);
  }

  /** The pids stay as they are while the table executes. */
  lemma CycleStays(s: State, ps: Table, t: nat, e: nat, next: int)
    requires |ps| >= 26 && e < 50 && CycleState(s, ps, e + 1)
    ensures CycleState(s, Execute(ps, next, t), e + 1)
  {
    PidsOfExecuted(ps, next, t, (e + 1) / 2, |ps|);
    if (e + 1) % 2 == 1 { PidsOfExecuted(ps, next, t, (e + 1) / 2 + 1, |ps|); }
  }

  lemma CycleServes(c: State, ps: Table, b: State, t: nat)
    requires MidRun(ps, t) && |ps| >= 26 && c.running == IDLE && c.m.q.l0 == PidsFrom(ps, 0, |ps|) && c.m.saved.l0 == 0
    requires SliceOk(c, LEVEL_QUANTUM) && b == Select(c).0 && ps[0].remaining >= 2
    ensures b.running == ps[0].pid && CycleState(Settled(b, ps), ps, 1)
  {
    SelectAdvances(c);
    PidsFromHead(ps, 0, |ps|);
    FirstTick(b, ps, t, 0);
  }

  /** The first tick of a cycle, from a top level that holds everybody in table order. */
  lemma CycleStart(c: State, ps: Table, b: State, t: nat, k: nat)
    requires MidRun(ps, t) && |ps| >= 26 && c.running == IDLE && c.m.q.l0 == PidsFrom(ps, 0, |ps|) && c.m.saved.l0 == 0
    requires SliceOk(c, LEVEL_QUANTUM) && b == Select(c).0 && CycleWork(ps, k, 0) && ps[0].burst >= 2 * k + 2
    ensures InCycle(Settled(b, ps), Execute(ps, b.running, t), k, 1)
  {
    CycleServes(c, ps, b, t);
    CycleWorks(ps, t, k, 0, b.running);
    CycleStays(Settled(b, ps), ps, t, 0, b.running);
  }

  lemma {:induction false} OthersAreAll(ps: Table, t: int, k: nat)
    requires k <= |ps| && forall i :: 0 <= i < |ps| ==> Active(ps[i], t) && ps[i].pid != IDLE
    ensures Others(ps, t, IDLE, k) == PidsFrom(ps, 0, k)
  {
    if k > 0 { OthersAreAll(ps, t, k - 1); }
  }

  lemma {:induction false} ArrivingAreAll(ps: Table, k: nat)
    requires k <= |ps| && forall i :: 0 <= i < |ps| ==> ps[i].arrival == 0
    ensures ArrivingPids(ps, 0, k) == PidsFrom(ps, 0, k)
  {
    if k > 0 { ArrivingAreAll(ps, k - 1); }
  }

  /** `InCycle` as tick `t` of the run begins. */
  ghost predicate CycleTime(P: Table, t: nat, k: nat, e: nat) {
    var r := After(MlfqScheduler(), P, t);
    r.Some? && InCycle(r.value.st, r.value.procs, k, e)
  }

  ghost predicate CycleAt(P: Table, k: nat, e: nat) {
    CycleTime(P, BOOST_INTERVAL * k + e, k, e)
  }

  lemma FirstCycle(P: Table, m: nat)
    requires Crowd(P, m) && m > 0
    ensures CycleAt(P, 0, 1)
  {
    var s, b, s' := OneTick(P, 0);
    FirstCycleTick(P, m, b);
    assert s.st == INIT && s.procs == P;
    assert After(MlfqScheduler(), P, BOOST_INTERVAL * 0 + 1) == Some(s');
  }

  lemma FirstCycleTick(P: Table, m: nat, b: State)
    requires Crowd(P, m) && m > 0 && b == Select(Admitted(INIT, P, 0)).0
    ensures InCycle(Settled(b, P), Execute(P, b.running, 0), 0, 1)
  {
    var c := Admitted(INIT, P, 0);
    ArrivingAreAll(P, |P|);
    assert c.m.q.l0 == [] + Arriving(P, 0) == PidsFrom(P, 0, |P|);
    CycleStart(c, P, b, 0, 0);
  }

  lemma NextInCycle(P: Table, m: nat, k: nat, e: nat)
    requires Crowd(P, m) && k < m && e < 50 && CycleAt(P, k, e)
    ensures CycleAt(P, k, e + 1)
  {
    var t := BOOST_INTERVAL * k + e;
    var s, b, s' := OneTick(P, t);
    NoArrivals(s.procs, t, |P|);
    assert s.st.m.q.l0 + [] == s.st.m.q.l0;
    NotBoost(k, e);
    CycleTick(s.st, s.procs, b, t, k, e);
  }

  lemma NotBoost(k: nat, e: nat)
    requires 1 <= e < 50
    ensures !IsBoostTick(BOOST_INTERVAL * k + e)
  {
  }

  /** After 50 ticks the first 25 have each had their two, and nobody is running. */
  lemma CycleEnd(s: State, ps: Table, k: nat)
    requires InCycle(s, ps, k, 50)
    ensures s.running == IDLE && CycleWork(ps, k + 1, 0)
  {
  }

  lemma NextCycleTick(P: Table, m: nat, k: nat, t: nat)
    requires Crowd(P, m) && k + 1 < m && IsBoostTick(t) && CycleTime(P, t, k, 50)
    ensures CycleTime(P, t + 1, k + 1, 1)
  {
    var s, b, s' := OneTick(P, t);
    CycleEnd(s.st, s.procs, k);
    BoostCycle(Admitted(s.st, s.procs, t), s.procs, b, t, k + 1);
  }

  lemma EveryFiftieth(k: nat)
    requires k > 0
    ensures IsBoostTick(BOOST_INTERVAL * k)
  {
  }

  lemma BoostCycle(a: State, ps: Table, b: State, t: nat, k: nat)
    requires MidRun(ps, t) && |ps| >= 26 && SliceOk(a, LEVEL_QUANTUM) && Lists(Held(a), ps, t)
    requires a.running == IDLE && b == Select(Boost(a, ps, t)).0 && CycleWork(ps, k, 0)
    requires forall i :: 0 <= i < 25 ==> ps[i].burst >= 2 * k + 2
    ensures InCycle(Settled(b, ps), Execute(ps, b.running, t), k, 1)
  {
    BoostKeeps(a, ps, t);
    OthersAreAll(ps, t, |ps|);
    CycleStart(Boost(a, ps, t), ps, b, t, k);
  }

  lemma {:induction false} WithinCycle(P: Table, m: nat, k: nat, e: nat)
    requires Crowd(P, m) && k < m && 1 <= e <= 50 && CycleAt(P, k, 1)
    ensures CycleAt(P, k, e)
    decreases e
  {
    if e > 1 {
      WithinCycle(P, m, k, e - 1);
      NextInCycle(P, m, k, e - 1);
    }
  }

  lemma NextCycle(P: Table, m: nat, k: nat, next: nat)
    requires Crowd(P, m) && next == k + 1 < m && CycleAt(P, k, 50)
    ensures CycleAt(P, next, 1)
  {
    var t := BOOST_INTERVAL * next;
    assert CycleTime(P, t, k, 50);
    EveryFiftieth(next);
    NextCycleTick(P, m, k, t);
  }

  lemma WholeCycle(P: Table, m: nat, k: nat, next: nat)
    requires Crowd(P, m) && next == k + 1 < m && CycleAt(P, k, 1)
    ensures CycleAt(P, next, 1)
  {
    WithinCycle(P, m, k, 50);
    NextCycle(P, m, k, next);
  }

  lemma {:induction false} Cycles(P: Table, m: nat, k: nat)
    requires Crowd(P, m) && k < m
    ensures CycleAt(P, k, 1)
  {
    if k == 0 {
      FirstCycle(P, m);
    } else {
      Cycles(P, m, k - 1);
      WholeCycle(P, m, k - 1, k);
    }
  }

  lemma NotRunYet(P: Table, m: nat, k: nat, t: nat, i: nat)
    requires Crowd(P, m) && m == k + 1 && t == BOOST_INTERVAL * m && CycleAt(P, k, 50) && 25 <= i < |P|
    ensures After(MlfqScheduler(), P, t).Some? && Need(P, i, t) == P[i].burst
  {
    assert CycleTime(P, t, k, 50);
    var s := StateAt(P, t);
  }

  lemma StarvesUntil(P: Table, m: nat, k: nat, t: nat, i: nat)
    requires Crowd(P, m) && m == k + 1 && t == BOOST_INTERVAL * m && 25 <= i < |P|
    ensures After(MlfqScheduler(), P, t).Some? && Need(P, i, t) == P[i].burst
  {
    Cycles(P, m, k);
    WithinCycle(P, m, k, 50);
    NotRunYet(P, m, k, t, i);
  }

  /** However short its burst, no process after the first 25 has run a single tick after `m`
      boost intervals. */
  lemma LaterSlotsStarve(P: Table, m: nat, i: nat)
    requires Crowd(P, m) && m > 0 && 25 <= i < |P|
    ensures After(MlfqScheduler(), P, BOOST_INTERVAL * m).Some?
    ensures Need(P, i, BOOST_INTERVAL * m) == P[i].burst
  {
    StarvesUntil(P, m, m - 1, BOOST_INTERVAL * m, i);
  }

  function CrowdMember(i: nat): Process {
    var burst := if i < 25 then 100 else 1;
    Process(i + 1, 0, burst, 0, 0, 0, burst, NOT_STARTED, NOT_STARTED)
  }

  /** The crowd of `n`: 25 processes with 100 ticks each, and the rest with one. */
  function CrowdOf(n: nat): (P: Table)
    ensures |P| == n
  {
    seq(n, i requires 0 <= i < n => CrowdMember(i))
  }

  lemma {:induction false} CrowdWork(n: nat, k: nat)
    requires k <= n
    ensures SumBurst(CrowdOf(n), k) <= 100 * k
  {
    if k > 0 {
      CrowdWork(n, k - 1);
      assert CrowdOf(n)[k - 1] == CrowdMember(k - 1);
    }
  }

  lemma CrowdIsCrowd(n: nat)
    requires 26 <= n <= MAX_PROCESSES
    ensures Loaded(CrowdOf(n)) && Crowd(CrowdOf(n), 50) && CrowdOf(n)[25].burst == 1
  {
    var P := CrowdOf(n);
    assert forall i :: 0 <= i < n ==> P[i] == CrowdMember(i);
  }

  lemma CrowdRuns(n: nat)
    requires 26 <= n <= MAX_PROCESSES
    ensures Run(MlfqScheduler(), CrowdOf(n)).Some?
  {
    var P := CrowdOf(n);
    CrowdIsCrowd(n);
    CrowdWork(n, n);
    FinishAtMost(P, 0, 0);
    assert P[n - 1] == CrowdMember(n - 1);
    Conserves(P);
    Outcome(MlfqScheduler(), P);
  }

  /** For every table size from 26 to the loader's limit the bound of `NoStarvation` fails for
      every slot after the first 25: a process of burst 1 that the bound would finish by tick
      100 outlasts tick 2500. */
  lemma BoundFailsBeyond25(n: nat, i: nat)
    requires 25 <= i < n <= 64
    ensures Loaded(CrowdOf(n)) && PidsFit(CrowdOf(n)) && Run(MlfqScheduler(), CrowdOf(n)).Some?
    ensures FirstBoost(CrowdOf(n)[i].arrival) + 50 * ((CrowdOf(n)[i].burst + 1) / 2) == 100
    ensures Run(MlfqScheduler(), CrowdOf(n)).value.procs[i].completion > 2500
  {
    var P := CrowdOf(n);
    CrowdIsCrowd(n);
    CrowdRuns(n);
    LaterSlotsStarve(P, 50, i);
    assert P[i] == CrowdMember(i);
    CompletesAfter(MlfqScheduler(), P, i, 2500);
  }
}
