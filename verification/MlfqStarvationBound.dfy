/** The boost bounds the completion of the first 25 processes of any table. */
module MlfqStarvationBound {
  import opened Processes
  import opened Engine
  import opened Timelines
  import opened WorkConservation
  import opened ReadyLists
  import opened MultiQueue
  import opened Mlfq
  import opened MlfqStarvation

  // A boost can put one process ahead of the first 25, the one that is running. What follows
  // shows that this costs none of them a turn: the next boost finds none of the later ones
  // running, and by its own first boost a process has had a turn before any later one runs.

  // ---------- From one boost to the next ----------

  /** One of the first 25 of the table. */
  predicate Early(ps: Table, x: int) { 0 <= IndexOf(ps, x) < 25 }

  /** What is left of the slice of an early process that runs on the top level. */
  function EarlyTop(s: State, ps: Table): nat {
    if Early(ps, s.running) then OnTop(s) else 0
  }

  /** The first `n` of the top level are early. */
  ghost predicate EarlyHead(l: seq<int>, ps: Table, n: nat) {
    n <= |l| && forall p :: 0 <= p < n ==> Early(ps, l[p])
  }

  /** Early processes will use the CPU for `d` ticks more before anybody else on the top level
      does, and `y` is not running. */
  ghost predicate Behind(s: State, ps: Table, y: int, d: int) {
    s.running != y && exists n: nat :: EarlyHead(s.m.q.l0, ps, n) && EarlyTop(s, ps) + 2 * n >= d
  }

  /** The process on the CPU of the top level, if it does not finish, uses a tick of its slice. */
  lemma SettleUsesOne(b: State, ps: Table)
    requires b.running != IDLE && b.level == 0 && 1 <= b.left && !Finishes(ps, b.running)
    ensures var s := Settled(b, ps);
            s.m.q.l0 == b.m.q.l0 && OnTop(s) == b.left - 1 && (OnTop(s) > 0 ==> s.running == b.running)
  {
  }

  lemma EarlyStays(ps: Table, next: int, t: nat)
    ensures forall x :: Early(Execute(ps, next, t), x) == Early(ps, x)
  {
    forall x ensures Early(Execute(ps, next, t), x) == Early(ps, x) { SameIndex(ps, Execute(ps, next, t), x); }
  }

  /** Nobody early finishes on this tick. */
  ghost predicate EarlyLast(ps: Table, next: int) {
    Early(ps, next) ==> !Finishes(ps, next)
  }

  lemma BehindStep(s: State, ps: Table, t: nat, b: State, y: int, d: int)
    requires MidRun(ps, t) && Behind(s, ps, y, d) && d >= 1 && !Early(ps, y) && y != IDLE
    requires var a := Admitted(s, ps, t); SliceOk(a, LEVEL_QUANTUM) && a.m.saved.l0 == 0 && b == Select(a).0
    requires EarlyLast(ps, b.running)
    ensures Behind(Settled(b, ps), Execute(ps, b.running, t), y, d - 1)
  {
    var a := Admitted(s, ps, t);
    var n: nat :| EarlyHead(s.m.q.l0, ps, n) && EarlyTop(s, ps) + 2 * n >= d;
    assert EarlyHead(a.m.q.l0, ps, n) && OnTop(a) == OnTop(s);
    SelectAdvances(a);
    BehindServed(a, ps, t, b, y, d, n);
  }

  lemma BehindServed(a: State, ps: Table, t: nat, b: State, y: int, d: int, n: nat)
    requires MidRun(ps, t) && a.running != y && EarlyHead(a.m.q.l0, ps, n) && EarlyTop(a, ps) + 2 * n >= d >= 1
             && !Early(ps, y) && y != IDLE
    requires EarlyLast(ps, b.running) && SliceOk(a, LEVEL_QUANTUM)
    requires OnTop(a) > 0 ==> b == a
    requires OnTop(a) == 0 && a.m.q.l0 != [] ==>
               b.running == a.m.q.l0[0] && b.level == 0 && b.left == 2 && b.m.q.l0 == a.m.q.l0[1..]
    ensures Behind(Settled(b, ps), Execute(ps, b.running, t), y, d - 1)
  {
    var s', ps' := Settled(b, ps), Execute(ps, b.running, t);
    EarlyStays(ps, b.running, t);
    if OnTop(a) > 0 {
      assert s'.m.q.l0 == a.m.q.l0 && EarlyHead(s'.m.q.l0, ps', n);
      if Early(ps, a.running) { SettleUsesOne(b, ps); }
    } else {
      assert Early(ps, a.m.q.l0[0]);
      HeadIsReal(ps, a.m.q.l0[0]);
      SettleUsesOne(b, ps);
      assert EarlyHead(s'.m.q.l0, ps', n - 1);
    }
  }

  lemma HeadIsReal(ps: Table, x: int)
    requires Early(ps, x) && forall i :: 0 <= i < |ps| ==> ps[i].pid != IDLE
    ensures x != IDLE
  {
  }

  ghost predicate BehindAt(P: Table, t: nat, y: int, end: int) {
    var r := After(MlfqScheduler(), P, t);
    r.Some? && Behind(r.value.st, r.value.procs, y, end - t)
  }

  /** The first 25 processes all still have work at tick `t`. */
  ghost predicate EarlyUnfinished(P: Table, t: nat) {
    25 <= |P| && forall k :: 0 <= k < 25 ==> Need(P, k, t) > 0
  }

  lemma EarlyDoNotFinish(P: Table, t: nat, s: Sim<State>, b: State, s': Sim<State>)
    requires Fresh(P) && After(MlfqScheduler(), P, t + 1) == Some(s') && EarlyUnfinished(P, t + 1)
    requires SameProcesses(P, s.procs) && MidRun(s.procs, t) && s'.procs == Execute(s.procs, b.running, t)
    requires b.running == IDLE || Runnable(s.procs, b.running, t)
    ensures EarlyLast(s.procs, b.running)
  {
    if Early(s.procs, b.running) && b.running != IDLE {
      var k := IndexOf(s.procs, b.running);
      ExecuteOne(s.procs, b.running, t, k);
      assert Need(P, k, t + 1) > 0;
    }
  }

  lemma BehindTick(P: Table, t: nat, next: nat, y: int, end: int)
    requires Fresh(P) && !IsBoostTick(t) && next == t + 1 <= end && !Early(P, y) && y != IDLE
    requires BehindAt(P, t, y, end) && EarlyUnfinished(P, next)
    ensures BehindAt(P, next, y, end)
  {
    var s, b, s' := OneTick(P, t);
    EarlyDoNotFinish(P, t, s, b, s');
    SameIndex(P, s.procs, y);
    BehindStep(s.st, s.procs, t, b, y, end - t);
  }

  lemma EarlyUnfinishedBefore(P: Table, t: nat, u: nat)
    requires Fresh(P) && t <= u && EarlyUnfinished(P, u)
    ensures EarlyUnfinished(P, t)
  {
    forall k | 0 <= k < 25 ensures Need(P, k, t) > 0 { NeedFalls(P, k, t, u); }
  }

  lemma {:induction false} BehindTicks(P: Table, t: nat, u: nat, y: int, end: nat)
    requires Fresh(P) && t <= u <= end && !Early(P, y) && y != IDLE && forall v :: t <= v < u ==> !IsBoostTick(v)
    requires BehindAt(P, t, y, end) && EarlyUnfinished(P, end)
    ensures BehindAt(P, u, y, end)
  {
    if t < u {
      BehindTicks(P, t, u - 1, y, end);
      BehindNext(P, u - 1, u, y, end);
    }
  }

  lemma BehindNext(P: Table, t: nat, next: nat, y: int, end: nat)
    requires Fresh(P) && !IsBoostTick(t) && next == t + 1 <= end && !Early(P, y) && y != IDLE
    requires BehindAt(P, t, y, end) && EarlyUnfinished(P, end)
    ensures BehindAt(P, next, y, end)
  {
    EarlyUnfinishedBefore(P, next, end);
    BehindTick(P, t, next, y, end);
  }

  /** The rebuilt top level begins with the early processes, but for the running one. */
  lemma {:induction false} OthersEarly(ps: Table, t: int, running: int, k: nat)
    requires Sorted(ps) && k <= 25 <= |ps| && forall j :: 0 <= j < 25 ==> Active(ps[j], t)
    ensures EarlyHead(Others(ps, t, running, k), ps, |Others(ps, t, running, k)|)
    ensures |Others(ps, t, running, k)| == k - (if 0 <= IndexOf(ps, running) < k then 1 else 0)
  {
    if k > 0 {
      OthersEarly(ps, t, running, k - 1);
      IndexOfOwn(ps, k - 1);
    }
  }

  lemma {:induction false} OthersPrefix(ps: Table, t: int, running: int, j: nat, k: nat)
    requires j <= k <= |ps|
    ensures Others(ps, t, running, j) <= Others(ps, t, running, k)
  {
    if j < k { OthersPrefix(ps, t, running, j, k - 1); }
  }

  /** `y` runs first after a boost, and has one more tick; then come the early processes. */
  ghost predicate Leads(s: State, ps: Table, y: int) {
    s.running == y && s.level == 0 && s.left == 1 && EarlyHead(s.m.q.l0, ps, 25)
  }

  lemma BoostLine(a: State, ps: Table, t: nat)
    requires MidRun(ps, t) && 25 <= |ps| && forall j :: 0 <= j < 25 ==> Active(ps[j], t)
    ensures var l0 := Boost(a, ps, t).m.q.l0;
            if a.running != IDLE && !Early(ps, a.running)
            then l0 != [] && l0[0] == a.running && EarlyHead(l0[1..], ps, 25)
            else EarlyHead(l0, ps, 25)
  {
    var l := Others(ps, t, a.running, 25);
    OthersEarly(ps, t, a.running, 25);
    OthersPrefix(ps, t, a.running, 25, |ps|);
    BoostHeld(a, ps, t);
    assert Held(Boost(a, ps, t)) == Boost(a, ps, t).m.q.l0;
    var all := Others(ps, t, a.running, |ps|);
    assert forall p :: 0 <= p < |l| ==> all[p] == l[p];
    if Early(ps, a.running) {
      var l0 := [a.running] + all;
      assert forall p :: 0 < p < 25 ==> l0[p] == l[p - 1];
      assert EarlyHead(l0, ps, 25);
    }
  }

  lemma BoostBehind(a: State, ps: Table, t: nat, b: State, y: int)
    requires MidRun(ps, t) && 25 <= |ps| && (forall j :: 0 <= j < 25 ==> Active(ps[j], t)) && !Early(ps, y) && y != IDLE
    requires b == Select(Boost(a, ps, t)).0 && EarlyLast(ps, b.running)
    ensures var s', ps' := Settled(b, ps), Execute(ps, b.running, t); Behind(s', ps', y, 49) || Leads(s', ps', y)
  {
    BoostLine(a, ps, t);
    BoostPops(Boost(a, ps, t));
    EarlyStays(ps, b.running, t);
    var l0 := Boost(a, ps, t).m.q.l0;
    if a.running != IDLE && !Early(ps, a.running) {
      assert EarlyHead(b.m.q.l0, Execute(ps, b.running, t), 25);
    } else {
      assert Early(ps, l0[0]);
      HeadIsReal(ps, l0[0]);
      SettleUsesOne(b, ps);
      assert EarlyHead(b.m.q.l0, Execute(ps, b.running, t), 24);
    }
  }

  lemma LeadEnds(s: State, ps: Table, t: nat, b: State, y: int)
    requires MidRun(ps, t) && Leads(s, ps, y) && y != IDLE
    requires var a := Admitted(s, ps, t); SliceOk(a, LEVEL_QUANTUM) && a.m.saved.l0 == 0 && b == Select(a).0
    ensures Behind(Settled(b, ps), Execute(ps, b.running, t), y, 48)
  {
    SelectAdvances(Admitted(s, ps, t));
    EarlyStays(ps, b.running, t);
    assert EarlyHead(Settled(b, ps).m.q.l0, Execute(ps, b.running, t), 25);
  }

  /** While the first 25 have work, nobody else is running when the next boost comes. */
  lemma RoundBehind(P: Table, t: nat, y: int)
    requires Fresh(P) && IsBoostTick(t) && EarlyUnfinished(P, t + 50) && !Early(P, y) && y != IDLE
    requires forall k :: 0 <= k < 25 ==> P[k].arrival <= t
    ensures After(MlfqScheduler(), P, t + 50).Some? && After(MlfqScheduler(), P, t + 50).value.st.running != y
  {
    forall v | t + 1 <= v < t + 50 ensures !IsBoostTick(v) { OneBoostPerInterval(t, v); }
    var u := FirstBehind(P, t, y);
    BehindTicks(P, u, t + 50, y, t + 50);
  }

  lemma FirstBehind(P: Table, t: nat, y: int) returns (u: nat)
    requires Fresh(P) && IsBoostTick(t) && EarlyUnfinished(P, t + 50) && !Early(P, y) && y != IDLE
    requires forall k :: 0 <= k < 25 ==> P[k].arrival <= t
    ensures t + 1 <= u <= t + 2 && BehindAt(P, u, y, t + 50)
  {
    var s, b, s' := OneTick(P, t);
    EarlyUnfinishedBefore(P, t, t + 50);
    EarlyUnfinishedBefore(P, t + 1, t + 50);
    EarlyDoNotFinish(P, t, s, b, s');
    SameIndex(P, s.procs, y);
    forall j | 0 <= j < 25 ensures Active(s.procs[j], t) { assert Need(P, j, t) > 0; }
    BoostBehind(Admitted(s.st, s.procs, t), s.procs, t, b, y);
    u := t + 1;
    if Leads(s'.st, s'.procs, y) {
      OneBoostPerInterval(t, t + 1);
      LeadEndsAt(P, t + 1, s', y, t + 50);
      u := t + 2;
    }
  }

  lemma LeadEndsAt(P: Table, t: nat, s: Sim<State>, y: int, end: int)
    requires Fresh(P) && !IsBoostTick(t) && After(MlfqScheduler(), P, t) == Some(s) && Leads(s.st, s.procs, y)
             && y != IDLE
    requires end == t + 49
    ensures BehindAt(P, t + 1, y, end)
  {
    var r, b, s' := OneTick(P, t);
    LeadEnds(s.st, s.procs, t, b, y);
  }

  /** With everybody earlier still there and not running, `Others` lists them all. */
  lemma {:induction false} OthersFull(ps: Table, t: int, running: int, k: nat)
    requires k <= |ps|
    ensures |Others(ps, t, running, k)| <= k
    ensures |Others(ps, t, running, k)| == k ==> forall j :: 0 <= j < k ==> Active(ps[j], t) && ps[j].pid != running
  {
    if k > 0 { OthersFull(ps, t, running, k - 1); }
  }

  /** If a boost queues the process in slot 24 in place 25, a later process is running. */
  lemma Crowded(ps: Table, t: nat, a: State)
    requires MidRun(ps, t) && 24 < |ps| && Active(ps[24], t) && Place(a, ps, t, 24) >= 25
    ensures a.running != IDLE && !Early(ps, a.running) && forall k :: 0 <= k < 25 ==> Active(ps[k], t)
  {
    OthersFull(ps, t, a.running, 24);
  }

  /** From its second boost on, slot 24 is among the first 25 too. */
  lemma LaterPlace(P: Table, t: nat, i: nat)
    requires Fresh(P) && i <= 24 && i < |P| && P[i].arrival <= t && IsBoostTick(t)
    ensures InPlace(P, t + 50, i, 25)
  {
    PlaceBound(P, t + 50, i);
    var s, b, s' := OneTick(P, t + 50);
    var a := Admitted(s.st, s.procs, t + 50);
    if s.procs[i].remaining > 0 && Place(a, s.procs, t + 50, i) >= 25 {
      Crowded(s.procs, t + 50, a);
      SameIndex(P, s.procs, a.running);
      EveryEarlyNeeds(P, t + 50, s);
      forall k | 0 <= k < 25 ensures P[k].arrival <= t { assert k < 24 ==> Before(P[k], P[24]); }
      RoundBehind(P, t, a.running);
    }
  }

  lemma EveryEarlyNeeds(P: Table, t: nat, s: Sim<State>)
    requires After(MlfqScheduler(), P, t) == Some(s) && 25 <= |P| == |s.procs| && forall k :: 0 <= k < 25 ==>
             Active(s.procs[k], t)
    ensures EarlyUnfinished(P, t)
  {
  }

  // ---------- From arrival to the first boost ----------

  /** `x`, which had `r0` left when it arrived and has `r` now, has had its turn or goes before
      `y`. */
  ghost predicate Unpassed(s: State, x: int, y: int, r: int, r0: int) {
    || r <= Sub2(r0)
    || (s.running == x && s.level == 0 && s.left == 1 && r == r0 - 1)
    || (r == r0 && s.running != y && exists p :: 0 <= p < |s.m.q.l0| && s.m.q.l0[p] == x && y !in s.m.q.l0[..p])
  }

  lemma UnpassedQueued(a: State, ps: Table, b: State, t: nat, i: nat, y: int, p: nat)
    requires MidRun(ps, t) && i < |ps| && ps[i].arrival <= t && ps[i].remaining > 0 && y != IDLE && y != ps[i].pid
    requires SliceOk(a, LEVEL_QUANTUM) && a.m.saved.l0 == 0 && Lists(Held(a), ps, t) && b == Select(a).0
    requires b.running == IDLE || Runnable(ps, b.running, t)
    requires p < |a.m.q.l0| && a.m.q.l0[p] == ps[i].pid && y !in a.m.q.l0[..p] && a.running != y
    ensures Unpassed(Settled(b, ps), ps[i].pid, y, Execute(ps, b.running, t)[i].remaining, ps[i].remaining)
  {
    SelectAdvances(a);
    QueuedOnce(a, ps, t, p);
    QueuedOnce(a, ps, t, 0);
    ExecuteOne(ps, b.running, t, i);
    SettleOnTop(b, ps);
    var l, l' := a.m.q.l0, Settled(b, ps).m.q.l0;
    if OnTop(a) > 0 {
      assert l'[p] == ps[i].pid && y !in l'[..p];
    } else if p > 0 {
      assert l'[..p - 1] == l[..p][1..] && l'[p - 1] == ps[i].pid;
      assert l[..p][0] == l[0] != y;
    }
  }

  lemma UnpassedStep(s: State, ps: Table, b: State, t: nat, i: nat, y: int, r0: int)
    requires MidRun(ps, t) && i < |ps| && ps[i].arrival <= t && y != IDLE && y != ps[i].pid
    requires var a := Admitted(s, ps, t);
             SliceOk(a, LEVEL_QUANTUM) && a.m.saved.l0 == 0 && Lists(Held(a), ps, t) && b == Select(a).0
    requires b.running == IDLE || Runnable(ps, b.running, t)
    requires Unpassed(s, ps[i].pid, y, ps[i].remaining, r0)
    ensures Unpassed(Settled(b, ps), ps[i].pid, y, Execute(ps, b.running, t)[i].remaining, r0)
  {
    var a, x := Admitted(s, ps, t), ps[i].pid;
    ExecuteOne(ps, b.running, t, i);
    if ps[i].remaining > Sub2(r0) {
      if s.running == x && s.level == 0 && s.left == 1 && ps[i].remaining == r0 - 1 {
        SelectAdvances(a);
      } else {
        var p :| 0 <= p < |s.m.q.l0| && s.m.q.l0[p] == x && y !in s.m.q.l0[..p];
        assert a.m.q.l0[..p] == s.m.q.l0[..p];
        UnpassedQueued(a, ps, b, t, i, y, p);
      }
    }
  }

  ghost predicate UnpassedAt(P: Table, t: nat, i: nat, y: int)
    requires i < |P|
  {
    var r := After(MlfqScheduler(), P, t);
    r.Some? && Unpassed(r.value.st, P[i].pid, y, r.value.procs[i].remaining, P[i].burst)
  }

  lemma UnpassedTick(P: Table, t: nat, next: nat, i: nat, y: int)
    requires Fresh(P) && i < |P| && P[i].arrival <= t && !IsBoostTick(t) && next == t + 1 && UnpassedAt(P, t, i, y)
    requires y != IDLE && y != P[i].pid
    ensures UnpassedAt(P, next, i, y)
  {
    var s, b, s' := OneTick(P, t);
    ExecuteOne(s.procs, b.running, t, i);
    UnpassedStep(s.st, s.procs, b, t, i, y, P[i].burst);
  }

  lemma {:induction false} UnpassedTicks(P: Table, t: nat, u: nat, i: nat, y: int)
    requires Fresh(P) && i < |P| && P[i].arrival <= t <= u && UnpassedAt(P, t, i, y) && y != IDLE && y != P[i].pid
    requires forall v :: t <= v < u ==> !IsBoostTick(v)
    ensures UnpassedAt(P, u, i, y)
  {
    if t < u {
      UnpassedTicks(P, t, u - 1, i, y);
      UnpassedTick(P, u - 1, u, i, y);
    }
  }

  lemma {:induction false} ArrivingPlace(ps: Table, t: int, i: nat, k: nat)
    requires i < k <= |ps| && ps[i].arrival == t
    ensures var l, p := ArrivingPids(ps, t, k), |ArrivingPids(ps, t, i)|;
            p < |l| && l[p] == ps[i].pid && l[..p] == ArrivingPids(ps, t, i)
  {
    var p := |ArrivingPids(ps, t, i)|;
    if i < k - 1 {
      ArrivingPlace(ps, t, i, k - 1);
      assert ArrivingPids(ps, t, k)[..p] == ArrivingPids(ps, t, k - 1)[..p];
    }
  }

  lemma {:induction false} ArrivingBefore(ps: Table, t: int, i: nat, j: nat)
    requires Sorted(ps) && i <= j < |ps|
    ensures ps[j].pid !in ArrivingPids(ps, t, i)
  {
    if i > 0 {
      ArrivingBefore(ps, t, i - 1, j);
      IndexOfOwn(ps, i - 1);
      IndexOfOwn(ps, j);
    }
  }

  /** On arrival a process joins the top level ahead of everybody later in the table. */
  lemma ArrivesAhead(s: State, ps: Table, t: nat, i: nat, j: nat) returns (p: nat)
    requires MidRun(ps, t) && i < j < |ps| && ps[i].arrival == t && Lists(Held(s), ps, t - 1)
    ensures var a := Admitted(s, ps, t);
            p < |a.m.q.l0| && a.m.q.l0[p] == ps[i].pid && ps[j].pid !in a.m.q.l0[..p] && a.running != ps[j].pid
  {
    assert Before(ps[i], ps[j]);
    IndexOfOwn(ps, j);
    ListsIff(Held(s), ps, t - 1, ps[j].pid);
    assert ps[j].pid !in Held(s);
    ArrivingPlace(ps, t, i, |ps|);
    ArrivingBefore(ps, t, i, j);
    p := |s.m.q.l0| + |ArrivingPids(ps, t, i)|;
    var l := s.m.q.l0 + Arriving(ps, t);
    assert l[..p] == s.m.q.l0 + ArrivingPids(ps, t, i);
  }

  lemma UnpassedAtFirst(P: Table, i: nat, j: nat, t: nat)
    requires Fresh(P) && i < j < |P| && t == P[i].arrival && !IsBoostTick(t)
    ensures UnpassedAt(P, t + 1, i, P[j].pid)
  {
    var s, b, s' := OneTick(P, t);
    IndexOfOwn(P, i);
    IndexOfOwn(P, j);
    var p := ArrivesAhead(s.st, s.procs, t, i, j);
    UnpassedQueued(Admitted(s.st, s.procs, t), s.procs, b, t, i, P[j].pid, p);
  }

  /** Whoever is running as a tick begins has arrived before it. */
  lemma RunnerArrived(s: State, ps: Table, t: nat) returns (j: nat)
    requires MidRun(ps, t) && Lists(Held(s), ps, t - 1) && s.running != IDLE
    ensures j < |ps| && ps[j].pid == s.running && j == IndexOf(ps, s.running) && ps[j].arrival < t
  {
    ListsIff(Held(s), ps, t - 1, s.running);
    j := IndexOf(ps, s.running);
  }

  lemma CrowdedOut(P: Table, t: nat, s: Sim<State>)
    requires Fresh(P) && 24 < |P| && t == FirstBoost(P[24].arrival) && After(MlfqScheduler(), P, t) == Some(s)
    requires SameProcesses(P, s.procs) && MidRun(s.procs, t) && Lists(Held(s.st), s.procs, t - 1)
    requires Active(s.procs[24], t) && Place(Admitted(s.st, s.procs, t), s.procs, t, 24) >= 25
    ensures Need(P, 24, t) <= Sub2(P[24].burst)
  {
    Crowded(s.procs, t, Admitted(s.st, s.procs, t));
    var j := RunnerArrived(s.st, s.procs, t);
    TurnBeforeFirst(P, 24, j, t, s);
  }

  /** By its first boost a process is among the first 25, or has had two ticks, or finished. */
  lemma FirstPlace(P: Table, i: nat)
    requires Fresh(P) && i <= 24 && i < |P|
    ensures var t := FirstBoost(P[i].arrival); InPlace(P, t, i, 25) || Need(P, i, t) <= Sub2(P[i].burst)
  {
    var t := FirstBoost(P[i].arrival);
    PlaceBound(P, t, i);
    var s := StateAt(P, t);
    if i == 24 && !InPlace(P, t, i, 25) { CrowdedOut(P, t, s); }
  }

  lemma TurnBeforeFirst(P: Table, i: nat, j: nat, t: nat, s: Sim<State>)
    requires Fresh(P) && i < j < |P| && t == FirstBoost(P[i].arrival) && P[j].arrival < t
    requires After(MlfqScheduler(), P, t) == Some(s) && s.st.running == P[j].pid
    ensures Need(P, i, t) <= Sub2(P[i].burst)
  {
    assert Before(P[i], P[j]);
    IndexOfOwn(P, i);
    IndexOfOwn(P, j);
    UnpassedAtFirst(P, i, j, P[i].arrival);
    UnpassedTicks(P, P[i].arrival + 1, t, i, P[j].pid);
  }

  // ---------- The bound ----------

  lemma ServedOnce(P: Table, u: nat, i: nat, t: nat)
    requires Indexable(P) && i < |P| && P[i].arrival <= u && IsBoostTick(u) && t == u + BOOST_INTERVAL
             && InPlace(P, u, i, 25)
    ensures Need(P, i, t) <= Sub2(Need(P, i, u))
  {
    BoostServes(P, u, i, 25);
  }

  function Due2(burst: int, k: nat): int { if burst <= 2 * k then 0 else burst - 2 * k }

  /** Two ticks for each of `k` boosts, and a good place at the next one, or two ticks more. */
  ghost predicate OnSchedule(P: Table, i: nat, k: nat, t: nat)
    requires i < |P|
  {
    && Need(P, i, t) <= Due2(P[i].burst, k)
    && (InPlace(P, t, i, 25) || (k == 0 && Need(P, i, t) <= Due2(P[i].burst, 1)))
  }

  lemma StaysOnSchedule(P: Table, i: nat, k: nat, u: nat, next: nat, t: nat)
    requires Indexable(P) && i <= 24 && i < |P| && P[i].arrival <= u && IsBoostTick(u)
    requires next == k + 1 && t == u + BOOST_INTERVAL && OnSchedule(P, i, k, u)
    ensures IsBoostTick(t) && OnSchedule(P, i, next, t)
  {
    LaterPlace(P, u, i);
    if InPlace(P, u, i, 25) { ServedOnce(P, u, i, t); } else { NeedFalls(P, i, u, t); }
  }

  /** After `k` boosts a process has had two ticks for each, or has finished. */
  lemma {:induction false} ServedByBoosts(P: Table, i: nat, k: nat, t: nat)
    requires Indexable(P) && i <= 24 && i < |P| && t == FirstBoost(P[i].arrival) + BOOST_INTERVAL * k
    ensures IsBoostTick(t) && OnSchedule(P, i, k, t)
  {
    if k == 0 {
      NeedInRange(P, i, t);
      FirstPlace(P, i);
    } else {
      var u := t - BOOST_INTERVAL;
      ServedByBoosts(P, i, k - 1, u);
      StaysOnSchedule(P, i, k - 1, u, k, t);
    }
  }

  /** Starvation freedom: in an accepted run of a table of any size each of the first 25
      processes completes within one boost interval per two ticks of its own burst. */
  lemma NoStarvation(P: Table, i: nat)
    requires Indexable(P) && i <= 24 && i < |P| && Run(MlfqScheduler(), P).Some?
    ensures Run(MlfqScheduler(), P).value.procs[i].completion
         <= FirstBoost(P[i].arrival) + 50 * ((P[i].burst + 1) / 2)
  {
    var k := (P[i].burst + 1) / 2;
    var t := FirstBoost(P[i].arrival) + BOOST_INTERVAL * k;
    ServedByBoosts(P, i, k, t);
    NeedInRange(P, i, t);
    CompletesBy(MlfqScheduler(), P, i, t);
  }
}
