/** How few context switches any run can make, and how many preemption can add. */
module ContextSwitches {
  import opened Processes
  import opened Engine
  import opened Timelines
  import opened WorkConservation
  import opened Selection
  import Fcfs

  function PidBefore(tl: seq<int>, t: nat): int
    requires t < |tl|
  {
    if t == 0 then IDLE else tl[t - 1]
  }

  /** Maximal stretches of one process among the first `t` ticks. */
  function Runs(tl: seq<int>, t: nat): nat
    requires t <= |tl|
  {
    if t == 0 then 0
    else Runs(tl, t - 1) + (if tl[t - 1] != IDLE && PidBefore(tl, t - 1) != tl[t - 1] then 1 else 0)
  }

  /** Maximal busy stretches among the first `t` ticks. */
  function Blocks(tl: seq<int>, t: nat): nat
    requires t <= |tl|
  {
    if t == 0 then 0
    else Blocks(tl, t - 1) + (if tl[t - 1] != IDLE && PidBefore(tl, t - 1) == IDLE then 1 else 0)
  }

  /** The stretches that belong to `pid`. */
  function RunsOf(tl: seq<int>, pid: int, t: nat): nat
    requires t <= |tl|
  {
    if t == 0 then 0
    else RunsOf(tl, pid, t - 1) + (if tl[t - 1] == pid && PidBefore(tl, t - 1) != pid then 1 else 0)
  }

  /** Each stretch begins with a switch or begins a busy block. */
  lemma {:induction false} SwitchesAndBlocks(tl: seq<int>, t: nat)
    requires t <= |tl|
    ensures Switches(tl, t) + Blocks(tl, t) == Runs(tl, t)
  {
    if t > 0 { SwitchesAndBlocks(tl, t - 1); }
  }

  function SumRuns(P: Table, tl: seq<int>, t: nat, k: nat): nat
    requires k <= |P| && t <= |tl|
  {
    if k == 0 then 0 else SumRuns(P, tl, t, k - 1) + RunsOf(tl, P[k - 1].pid, t)
  }

  lemma {:induction false} SumRunsStep(P: Table, tl: seq<int>, t: nat, k: nat)
    requires Sorted(P) && k <= |P| && t < |tl|
    ensures SumRuns(P, tl, t + 1, k) == SumRuns(P, tl, t, k)
         + (if 0 <= IndexOf(P, tl[t]) < k && PidBefore(tl, t) != tl[t] then 1 else 0)
  {
    if k > 0 {
      SumRunsStep(P, tl, t, k - 1);
      IndexOfOwn(P, k - 1);
    }
  }

  lemma {:induction false} RunsBelongToSomebody(P: Table, tl: seq<int>, t: nat)
    requires Fresh(P) && Legal(P, tl) && t <= |tl|
    ensures Runs(tl, t) == SumRuns(P, tl, t, |P|)
  {
    if t == 0 {
      SumRunsZero(P, tl, |P|);
    } else {
      RunsBelongToSomebody(P, tl, t - 1);
      SumRunsStep(P, tl, t - 1, |P|);
      assert LegalTick(P, tl, t - 1);
      assert IndexOf(P, IDLE) == -1;
    }
  }

  lemma {:induction false} SumRunsZero(P: Table, tl: seq<int>, k: nat)
    requires k <= |P|
    ensures SumRuns(P, tl, 0, k) == 0
  {
    if k > 0 { SumRunsZero(P, tl, k - 1); }
  }

  /** A process with ticks has a stretch; with one stretch so far, its ticks fill it. */
  lemma {:induction false} RunsOfIs(P: Table, tl: seq<int>, i: nat, t: nat)
    requires Fresh(P) && Legal(P, tl) && i < |P| && t <= |tl|
    ensures var x := P[i].pid; var q := Played(P[i], tl, t);
            && (RunsOf(tl, x, t) == 0 <==> TicksOf(tl, x, t) == 0)
            && (t > 0 && tl[t - 1] == x ==> (RunsOf(tl, x, t) == 1 <==> q.startTick + TicksOf(tl, x, t) == t))
  {
    if t > 0 {
      RunsOfIs(P, tl, i, t - 1);
      Books(P, tl, i, t - 1);
      Books(P, tl, i, t);
      if t > 1 && tl[t - 2] != P[i].pid { OneStretch(P, tl, i, t - 1); }
    }
  }

  /** With one stretch, and not running now, the stretch is over and the ticks are fewer than
      those since the start. */
  lemma OneStretch(P: Table, tl: seq<int>, i: nat, t: nat)
    requires Fresh(P) && Legal(P, tl) && i < |P| && 0 < t <= |tl| && tl[t - 1] != P[i].pid
    ensures var q := Played(P[i], tl, t); TicksOf(tl, P[i].pid, t) > 0 ==> q.startTick + TicksOf(tl, P[i].pid, t) < t
  {
    Books(P, tl, i, t - 1);
  }

  lemma {:induction false} NoTicksNoRuns(tl: seq<int>, x: int, t: nat, u: nat)
    requires t <= u <= |tl|
    ensures TicksOf(tl, x, t) <= TicksOf(tl, x, u) && RunsOf(tl, x, t) <= RunsOf(tl, x, u)
    ensures TicksOf(tl, x, t) == TicksOf(tl, x, u) ==> RunsOf(tl, x, t) == RunsOf(tl, x, u)
  {
    if t < u { NoTicksNoRuns(tl, x, t, u - 1); }
  }

  /** A finished process ran in one stretch exactly when its completion is its start plus its
      burst. */
  lemma OneStretchIff(P: Table, tl: seq<int>, i: nat)
    requires Fresh(P) && Legal(P, tl) && i < |P| && Played(P[i], tl, |tl|).remaining == 0
    ensures RunsOf(tl, P[i].pid, |tl|) >= 1
    ensures var q := Played(P[i], tl, |tl|);
            RunsOf(tl, P[i].pid, |tl|) == 1 <==> q.completion == q.startTick + P[i].burst
  {
    Books(P, tl, i, |tl|);
    var q := Played(P[i], tl, |tl|);
    var c := q.completion;
    NoTicksNoRuns(tl, P[i].pid, c, |tl|);
    Books(P, tl, i, c);
    RunsOfIs(P, tl, i, c);
    StartIsFixed(P, tl, i, c);
  }

  lemma StartIsFixed(P: Table, tl: seq<int>, i: nat, t: nat)
    requires Fresh(P) && Legal(P, tl) && i < |P| && t <= |tl| && TicksOf(tl, P[i].pid, t) > 0
    ensures Played(P[i], tl, t).startTick == Played(P[i], tl, |tl|).startTick
  {
    Books(P, tl, i, t);
    StartStays(P[i], tl, t, |tl|);
  }

  lemma {:induction false} StartStays(p: Process, tl: seq<int>, t: nat, u: nat)
    requires t <= u <= |tl| && Played(p, tl, t).startTick != NOT_STARTED
    ensures Played(p, tl, u).startTick == Played(p, tl, t).startTick
  {
    if t < u { StartStays(p, tl, t, u - 1); }
  }

  /** Every process ran in one stretch. */
  ghost predicate Uninterrupted(ps: Table) {
    forall i :: 0 <= i < |ps| ==> ps[i].completion == ps[i].startTick + ps[i].burst
  }

  lemma {:induction false} SumRunsFloor(P: Table, tl: seq<int>, ps: Table, k: nat)
    requires Fresh(P) && Legal(P, tl) && AllDone(P, tl, |tl|) && PlayedTable(P, tl, |tl|, ps) && k <= |P|
    ensures SumRuns(P, tl, |tl|, k) >= k
    ensures SumRuns(P, tl, |tl|, k) == k <==> forall i :: 0 <= i < k ==>
            ps[i].completion == ps[i].startTick + ps[i].burst
  {
    if k > 0 {
      SumRunsFloor(P, tl, ps, k - 1);
      OneStretchIff(P, tl, k - 1);
      PlayedStatic(P[k - 1], tl, |tl|);
      assert ps[k - 1] == Played(P[k - 1], tl, |tl|);
    }
  }

  /** Any accepted run, of any scheduler, makes at least one switch per process less one per
      busy block, and exactly that many when and only when nobody is interrupted. */
  lemma SwitchFloor<S>(sc: Scheduler<S>, P: Table)
    requires Fresh(P) && Run(sc, P).Some?
    ensures var s := Run(sc, P).value; var floor := |P| - Blocks(s.timeline, |s.timeline|);
            s.switches >= floor && (s.switches == floor <==> Uninterrupted(s.procs))
  {
    AcceptedRun(sc, P);
    var s := Run(sc, P).value;
    var T := |s.timeline|;
    SwitchesAndBlocks(s.timeline, T);
    RunsBelongToSomebody(P, s.timeline, T);
    SumRunsFloor(P, s.timeline, s.procs, |P|);
  }

  lemma {:induction false} SameIdleSameBlocks(a: seq<int>, b: seq<int>, t: nat)
    requires t <= |a| && t <= |b| && forall u :: 0 <= u < t ==> (a[u] == IDLE <==> b[u] == IDLE)
    ensures Blocks(a, t) == Blocks(b, t)
  {
    if t > 0 { SameIdleSameBlocks(a, b, t - 1); }
  }

  /** A work-conserving scheduler that interrupts nobody makes the fewest switches of all
      work-conserving schedulers. */
  lemma UninterruptedIsLeast<S, T>(a: Scheduler<S>, b: Scheduler<T>, P: Table)
    requires Fresh(P) && WorkConservingOn(a, P) && WorkConservingOn(b, P) && Run(a, P).Some?
    requires Uninterrupted(Run(a, P).value.procs)
    ensures Run(b, P).Some? && Run(a, P).value.switches <= Run(b, P).value.switches
  {
    Outcome(a, P);
    Outcome(b, P);
    SwitchFloor(a, P);
    SwitchFloor(b, P);
    SameIdleSameBlocks(Run(a, P).value.timeline, Run(b, P).value.timeline, Makespan(P));
  }

  // ---------- The schedulers that interrupt nobody ----------

  /** Whoever ran last and is unfinished runs again. */
  ghost predicate StickyTick(P: Table, tl: seq<int>, t: nat)
    requires 0 < t < |tl|
  {
    var k := IndexOf(P, tl[t - 1]);
    tl[t - 1] != IDLE && k >= 0 && Played(P[k], tl, t).remaining > 0 ==> tl[t] == tl[t - 1]
  }

  ghost predicate Sticky(P: Table, tl: seq<int>) {
    forall t :: 0 < t < |tl| ==> StickyTick(P, tl, t)
  }

  /** On a sticky timeline a started process runs without a gap until it finishes. */
  lemma {:induction false} StickyIsContiguous(P: Table, tl: seq<int>, i: nat, t: nat)
    requires Fresh(P) && Legal(P, tl) && Sticky(P, tl) && i < |P| && t <= |tl|
    ensures var q, c := Played(P[i], tl, t), TicksOf(tl, P[i].pid, t);
            && (c > 0 && q.remaining > 0 ==> t > 0 && tl[t - 1] == P[i].pid && q.startTick + c == t)
            && (q.remaining == 0 ==> q.completion == q.startTick + P[i].burst)
  {
    Books(P, tl, i, t);
    if t > 0 {
      StickyIsContiguous(P, tl, i, t - 1);
      Books(P, tl, i, t - 1);
      IndexOfOwn(P, i);
      if t > 1 { assert StickyTick(P, tl, t - 1); }
    }
  }

  lemma StickyExtends(P: Table, tl: seq<int>, next: int)
    requires Sticky(P, tl)
    requires |tl| > 0 ==>
               var k := IndexOf(P, tl[|tl| - 1]);
               tl[|tl| - 1] != IDLE && k >= 0 && Played(P[k], tl, |tl|).remaining > 0 ==> next == tl[|tl| - 1]
    ensures Sticky(P, tl + [next])
  {
    var ext := tl + [next];
    forall t | 0 < t < |ext|
      ensures StickyTick(P, ext, t)
    {
      if t < |tl| { assert StickyTick(P, tl, t); }
      var k := IndexOf(P, ext[t - 1]);
      if k >= 0 { PlayedPrefix(P[k], ext, tl, t); }
    }
  }

  /** A scheduler whose state names the unfinished process that ran last, and picks it. */
  ghost predicate Remembers<S>(running: S -> int, sc: Scheduler<S>, s: Sim<S>) {
    && (|s.timeline| > 0 ==>
          var last := s.timeline[|s.timeline| - 1]; var k := IndexOf(s.procs, last);
          last != IDLE && k >= 0 && s.procs[k].remaining > 0 ==> running(s.st) == last)
    && (running(s.st) != IDLE ==> Choice(sc, s).1 == running(s.st))
  }

  lemma {:induction false} RememberingIsSticky<S>(running: S -> int, sc: Scheduler<S>, P: Table, t: nat)
    requires Fresh(P) && After(sc, P, t).Some?
    requires forall u: nat :: u <= t && After(sc, P, u).Some? ==> Remembers(running, sc, After(sc, P, u).value)
    ensures Sticky(P, After(sc, P, t).value.timeline)
  {
    if t > 0 {
      var s := Unroll(sc, P, t);
      RememberingIsSticky(running, sc, P, t - 1);
      assert Remembers(running, sc, s);
      StickyNext(running, sc, P, s);
    }
  }

  lemma StickyNext<S>(running: S -> int, sc: Scheduler<S>, P: Table, s: Sim<S>)
    requires Fresh(P) && Sticky(P, s.timeline) && PlayedTable(P, s.timeline, |s.timeline|, s.procs)
             && Remembers(running, sc, s)
    ensures Sticky(P, s.timeline + [Choice(sc, s).1])
  {
    if |s.timeline| > 0 {
      forall i | 0 <= i < |P| ensures s.procs[i].pid == P[i].pid { PlayedStatic(P[i], s.timeline, |s.timeline|); }
      SameIndex(P, s.procs, s.timeline[|s.timeline| - 1]);
    }
    StickyExtends(P, s.timeline, Choice(sc, s).1);
  }

  ghost function FcfsRunning(): Fcfs.State -> int { (s: Fcfs.State) => s.running }

  ghost function Itself(): int -> int { (r: int) => r }

  lemma FcfsRemembers(P: Table, t: nat)
    requires Fresh(P) && After(Fcfs.FcfsScheduler(), P, t).Some?
    ensures Remembers(FcfsRunning(), Fcfs.FcfsScheduler(), After(Fcfs.FcfsScheduler(), P, t).value)
  {
    var s := After(Fcfs.FcfsScheduler(), P, t).value;
    Fcfs.Admits(s.st, s.procs, t, |P|);
    if t > 0 {
      var r := Unroll(Fcfs.FcfsScheduler(), P, t);
      Fcfs.Admits(r.st, r.procs, t - 1, |P|);
      FcfsSettles(r, s);
    }
  }

  lemma FcfsSettles(r: Sim<Fcfs.State>, s: Sim<Fcfs.State>)
    requires Step(Fcfs.FcfsScheduler(), r) == Some(s)
    requires Admit(Fcfs.FcfsScheduler(), r.st, r.procs, |r.timeline|, |r.procs|).running == r.st.running
    ensures var last := s.timeline[|s.timeline| - 1]; var k := IndexOf(s.procs, last);
            last != IDLE && k >= 0 && s.procs[k].remaining > 0 ==> s.st.running == last
  {
    var next := Choice(Fcfs.FcfsScheduler(), r).1;
    SameIndex(r.procs, s.procs, next);
  }

  lemma NonPreemptiveRemembers(key: Key, P: Table, t: nat)
    requires Fresh(P) && After(NonPreemptive(key), P, t).Some?
    ensures Remembers(Itself(), NonPreemptive(key), After(NonPreemptive(key), P, t).value)
  {
    var s := After(NonPreemptive(key), P, t).value;
    NonPreemptiveGoesOn(key, s);
    if t > 0 {
      var r := Unroll(NonPreemptive(key), P, t);
      NonPreemptiveSettles(key, r, s);
    }
  }

  lemma NonPreemptiveGoesOn(key: Key, s: Sim<int>)
    ensures Choice(NonPreemptive(key), s) == Dispatch(key, s.st, s.procs, |s.timeline|)
  {
    ScanAdmits(key, s.st, s.procs, |s.timeline|, |s.procs|);
  }

  lemma NonPreemptiveSettles(key: Key, r: Sim<int>, s: Sim<int>)
    requires Step(NonPreemptive(key), r) == Some(s)
    ensures var last := s.timeline[|s.timeline| - 1]; var k := IndexOf(s.procs, last);
            last != IDLE && k >= 0 && s.procs[k].remaining > 0 ==> s.st == last
  {
    NonPreemptiveGoesOn(key, r);
    SameIndex(r.procs, s.procs, Choice(NonPreemptive(key), r).1);
  }

  /** A remembering scheduler interrupts nobody: completion is start plus burst for each. */
  lemma RememberingIsUninterrupted<S>(running: S -> int, sc: Scheduler<S>, P: Table)
    requires Fresh(P) && Run(sc, P).Some?
    requires forall u: nat :: After(sc, P, u).Some? ==> Remembers(running, sc, After(sc, P, u).value)
    ensures Uninterrupted(Run(sc, P).value.procs)
  {
    AcceptedRun(sc, P);
    RunIffStops(sc, P);
    var s := Run(sc, P).value;
    RememberingIsSticky(running, sc, P, |s.timeline|);
    forall i | 0 <= i < |P|
      ensures s.procs[i].completion == s.procs[i].startTick + s.procs[i].burst
    {
      StickyIsContiguous(P, s.timeline, i, |s.timeline|);
      PlayedStatic(P[i], s.timeline, |s.timeline|);
    }
  }

  /** FCFS, SJF and non-preemptive priority interrupt nobody. */
  lemma ThreeInterruptNobody(P: Table)
    requires Fresh(P)
    ensures Run(Fcfs.FcfsScheduler(), P).Some? ==> Uninterrupted(Run(Fcfs.FcfsScheduler(), P).value.procs)
    ensures Run(Sjf(), P).Some? ==> Uninterrupted(Run(Sjf(), P).value.procs)
    ensures Run(PriorityNp(), P).Some? ==> Uninterrupted(Run(PriorityNp(), P).value.procs)
  {
    forall u: nat | After(Fcfs.FcfsScheduler(), P, u).Some?
      ensures Remembers(FcfsRunning(), Fcfs.FcfsScheduler(), After(Fcfs.FcfsScheduler(), P, u).value)
    {
      FcfsRemembers(P, u);
    }
    if Run(Fcfs.FcfsScheduler(), P).Some? { RememberingIsUninterrupted(FcfsRunning(), Fcfs.FcfsScheduler(), P); }
    NonPreemptiveInterruptsNobody(ByBurst, P);
    NonPreemptiveInterruptsNobody(ByPriority, P);
  }

  lemma NonPreemptiveInterruptsNobody(key: Key, P: Table)
    requires Fresh(P)
    ensures Run(NonPreemptive(key), P).Some? ==> Uninterrupted(Run(NonPreemptive(key), P).value.procs)
  {
    forall u: nat | After(NonPreemptive(key), P, u).Some?
      ensures Remembers(Itself(), NonPreemptive(key), After(NonPreemptive(key), P, u).value)
    {
      NonPreemptiveRemembers(key, P, u);
    }
    if Run(NonPreemptive(key), P).Some? { RememberingIsUninterrupted(Itself(), NonPreemptive(key), P); }
  }

  // ---------- What preemption can add ----------

  /** The keys that a process's own execution never worsens, and nobody else's changes. */
  predicate SelfKeyed(key: Key) { key == ByRemaining || key == ByPriority || key == ByBurst }

  /** Whoever ran last and is unfinished was as good as anybody active then, and still is. */
  ghost predicate Led(key: Key, running: int, ps: Table, tick: int) {
    && RunsOn(running, ps, tick)
    && (running != IDLE ==>
          forall i :: 0 <= i < |ps| && Active(ps[i], tick - 1) ==>
              KeyOf(key, ps[IndexOf(ps, running)]) <= KeyOf(key, ps[i]))
  }

  ghost function LedF(key: Key): (int, Table, int) -> bool {
    (running, ps, tick) => Led(key, running, ps, tick)
  }

  lemma LedTick(key: Key, st: int, ps: Table, cur: int, tick: nat)
    requires SelfKeyed(key) && MidRun(ps, tick) && Led(key, st, ps, tick)
    ensures GoodTick(Preemptive(key), LedF(key), st, ps, cur, tick)
  {
    PreemptiveTick(key, st, ps, cur, tick);
    ScanAdmits(key, st, ps, tick, |ps|);
    var b := Contend(ps, tick, key, st);
    if b >= 0 { LedSettles(key, ps, b, tick); }
  }

  lemma LedSettles(key: Key, ps: Table, b: nat, tick: nat)
    requires SelfKeyed(key) && MidRun(ps, tick) && b < |ps| && Active(ps[b], tick)
    requires forall i :: 0 <= i < |ps| && Active(ps[i], tick) ==> KeyOf(key, ps[b]) <= KeyOf(key, ps[i])
    ensures Led(key, Settle(Preemptive(key), ps[b].pid, ps, ps[b].pid, tick), Execute(ps, ps[b].pid, tick), tick + 1)
  {
    IndexOfOwn(ps, b);
    LedAfter(key, ps, b, tick);
    SettleRunning(Preemptive(key), ps, ps[b].pid, tick);
  }

  lemma LedAfter(key: Key, ps: Table, b: nat, tick: nat)
    requires SelfKeyed(key) && MidRun(ps, tick) && b < |ps| && Active(ps[b], tick)
    requires forall i :: 0 <= i < |ps| && Active(ps[i], tick) ==> KeyOf(key, ps[b]) <= KeyOf(key, ps[i])
    ensures var after := Execute(ps, ps[b].pid, tick);
            && IndexOf(after, ps[b].pid) == b
            && forall i :: 0 <= i < |after| && Active(after[i], tick) ==> KeyOf(key, after[b]) <= KeyOf(key, after[i])
  {
    IndexOfOwn(ps, b);
    SameIndex(ps, Execute(ps, ps[b].pid, tick), ps[b].pid);
  }

  /** An unfinished process is displaced only on a tick with an arrival, by that arrival, and
      only when its key is strictly smaller. */
  lemma DisplacedByArrival(key: Key, st: int, ps: Table, tick: nat)
    requires SelfKeyed(key) && MidRun(ps, tick) && Led(key, st, ps, tick) && st != IDLE
    ensures var b, inc := Contend(ps, tick, key, st), IndexOf(ps, st);
            b >= 0 && (b != inc ==> ps[b].arrival == tick && KeyOf(key, ps[b]) < KeyOf(key, ps[inc]))
  {
  }

  /** `DisplacedByArrival` on a timeline. */
  ghost predicate PatientTick(key: Key, P: Table, tl: seq<int>, t: nat)
    requires 0 < t < |tl|
  {
    var x, y := IndexOf(P, tl[t - 1]), IndexOf(P, tl[t]);
    tl[t - 1] != IDLE && tl[t] != tl[t - 1] && x >= 0 && Played(P[x], tl, t).remaining > 0 ==>
      y >= 0 && P[y].arrival == t && KeyOf(key, Played(P[y], tl, t)) < KeyOf(key, Played(P[x], tl, t))
  }

  lemma PreemptiveIsPatient(key: Key, P: Table, t: nat)
    requires SelfKeyed(key) && Fresh(P) && t > 0
    requires forall u: nat :: HoldsAt(Preemptive(key), P, LedF(key), u)
    ensures var r := After(Preemptive(key), P, t + 1); r.Some? && PatientTick(key, P, r.value.timeline, t)
  {
    assert HoldsAt(Preemptive(key), P, LedF(key), t + 1) && HoldsAt(Preemptive(key), P, LedF(key), t);
    var s := Unroll(Preemptive(key), P, t + 1);
    var r := Unroll(Preemptive(key), P, t);
    LastRan(key, r, s);
    ScanAdmits(key, s.st, s.procs, t, |P|);
    PatientChoice(key, P, s);
  }

  /** The state after a tick: the process that ran, while unfinished. */
  lemma LastRan(key: Key, r: Sim<int>, s: Sim<int>)
    requires Step(Preemptive(key), r) == Some(s)
    ensures var last := s.timeline[|s.timeline| - 1]; var k := IndexOf(s.procs, last);
            last != IDLE && k >= 0 && s.procs[k].remaining > 0 ==> s.st == last
  {
    ScanAdmits(key, r.st, r.procs, |r.timeline|, |r.procs|);
    SameIndex(r.procs, s.procs, Choice(Preemptive(key), r).1);
  }

  lemma PatientChoice(key: Key, P: Table, s: Sim<int>)
    requires SelfKeyed(key) && Fresh(P) && |s.timeline| > 0 && MidRun(s.procs, |s.timeline|)
             && Led(key, s.st, s.procs, |s.timeline|)
    requires PlayedTable(P, s.timeline, |s.timeline|, s.procs)
    requires Admit(Preemptive(key), s.st, s.procs, |s.timeline|, |s.procs|) == s.st
    requires var last := s.timeline[|s.timeline| - 1]; var k := IndexOf(s.procs, last);
             last != IDLE && k >= 0 && s.procs[k].remaining > 0 ==> s.st == last
    ensures PatientTick(key, P, s.timeline + [Choice(Preemptive(key), s).1], |s.timeline|)
  {
    var t, b := |s.timeline|, Contend(s.procs, |s.timeline|, key, s.st);
    var ext := s.timeline + [Choice(Preemptive(key), s).1];
    assert ext[t] == PidAt(s.procs, b);
    forall i | 0 <= i < |P|
      ensures s.procs[i].pid == P[i].pid && s.procs[i].arrival == P[i].arrival && Played(P[i], ext, t) == s.procs[i]
    {
      PlayedStatic(P[i], s.timeline, t);
      PlayedPrefix(P[i], ext, s.timeline, t);
    }
    SameIndex(P, s.procs, ext[t - 1]);
    if s.st != IDLE {
      DisplacedByArrival(key, s.st, s.procs, t);
      IndexOfOwn(P, b);
    }
  }

  /** How many of the first `k` processes are finished after `t` ticks. */
  function DoneBy(P: Table, tl: seq<int>, t: nat, k: nat): (c: nat)
    requires k <= |P| && t <= |tl|
    ensures c <= k
    ensures c == k ==> forall i :: 0 <= i < k ==> Played(P[i], tl, t).remaining == 0
  {
    if k == 0 then 0 else DoneBy(P, tl, t, k - 1) + (if Played(P[k - 1], tl, t).remaining == 0 then 1 else 0)
  }

  lemma {:induction false} DoneByStep(P: Table, tl: seq<int>, t: nat, k: nat)
    requires Fresh(P) && Legal(P, tl) && k <= |P| && t < |tl|
    ensures DoneBy(P, tl, t, k) <= DoneBy(P, tl, t + 1, k)
    ensures var x := IndexOf(P, tl[t]);
            0 <= x < k && tl[t] != IDLE && Played(P[x], tl, t + 1).remaining == 0 ==>
                DoneBy(P, tl, t, k) < DoneBy(P, tl, t + 1, k)
  {
    if k > 0 {
      DoneByStep(P, tl, t, k - 1);
      IndexOfOwn(P, k - 1);
      assert LegalTick(P, tl, t);
    }
  }

  /** Arrivals other than the first. */
  function LaterArrivals(P: Table, t: int): nat {
    var m := Arrived(P, t);
    if m == 0 then 0 else m - 1
  }

  lemma PatientStep(key: Key, P: Table, tl: seq<int>, u: nat)
    requires Fresh(P) && Legal(P, tl) && 0 < u < |tl| && PatientTick(key, P, tl, u)
    ensures DoneBy(P, tl, u - 1, |P|) + LaterArrivals(P, u - 1) + IsSwitch(tl[u - 1], tl[u])
         <= DoneBy(P, tl, u, |P|) + LaterArrivals(P, u)
  {
    DoneByStep(P, tl, u - 1, |P|);
    ArrivedMonotone(P, u - 1, u);
    if IsSwitch(tl[u - 1], tl[u]) == 1 {
      assert LegalTick(P, tl, u - 1);
      var x, y := IndexOf(P, tl[u - 1]), IndexOf(P, tl[u]);
      Books(P, tl, x, u);
      if Played(P[x], tl, u).remaining > 0 { NewArrival(P, tl, u, x, y); }
    }
  }

  lemma NewArrival(P: Table, tl: seq<int>, u: nat, x: nat, y: nat)
    requires Fresh(P) && 0 < u < |tl| && x < |P| && y < |P| && ActiveAt(P, tl, x, u - 1) && P[y].arrival == u
    ensures LaterArrivals(P, u - 1) < LaterArrivals(P, u)
  {
    PlayedStatic(P[x], tl, u - 1);
    ArrivedIff(P, u - 1, x);
    ArrivedIff(P, u - 1, y);
    ArrivedIff(P, u, y);
  }

  /** Each switch follows a completion or meets an arrival other than the first. */
  lemma {:induction false} PatientCount(key: Key, P: Table, tl: seq<int>, t: nat)
    requires Fresh(P) && Legal(P, tl) && 0 < t <= |tl| && forall u :: 0 < u < t ==> PatientTick(key, P, tl, u)
    ensures Switches(tl, t) <= DoneBy(P, tl, t - 1, |P|) + LaterArrivals(P, t - 1)
  {
    if t > 1 {
      PatientCount(key, P, tl, t - 1);
      PatientStep(key, P, tl, t - 1);
    }
  }

  lemma PatientBound(key: Key, P: Table, tl: seq<int>)
    requires Fresh(P) && |P| > 0 && CompleteRun(P, tl) && forall u :: 0 < u < |tl| ==> PatientTick(key, P, tl, u)
    ensures Switches(tl, |tl|) <= 2 * (|P| - 1)
  {
    if |tl| > 0 {
      PatientCount(key, P, tl, |tl|);
      assert !AllDone(P, tl, |tl| - 1);
    }
  }

  lemma LedThroughout(key: Key, P: Table)
    requires Fresh(P) && SelfKeyed(key)
    ensures forall u: nat :: HoldsAt(Preemptive(key), P, LedF(key), u)
  {
    forall st, ps, cur, tick: nat | MidRun(ps, tick) && LedF(key)(st, ps, tick)
      ensures GoodTick(Preemptive(key), LedF(key), st, ps, cur, tick)
    {
      LedTick(key, st, ps, cur, tick);
    }
    WorkConservingByInvariant(Preemptive(key), P, LedF(key));
  }

  /** SRTF and preemptive priority displace an unfinished process only on a tick with an
      arrival, by that arrival, and only for a strictly smaller key. */
  lemma OnlyArrivalsDisplace(key: Key, P: Table)
    requires Fresh(P) && (key == ByRemaining || key == ByPriority) && Run(Preemptive(key), P).Some?
    ensures var tl := Run(Preemptive(key), P).value.timeline; forall u :: 0 < u < |tl| ==> PatientTick(key, P, tl, u)
  {
    var sc := Preemptive(key);
    LedThroughout(key, P);
    RunIffStops(sc, P);
    var tl := Run(sc, P).value.timeline;
    forall u | 0 < u < |tl|
      ensures PatientTick(key, P, tl, u)
    {
      PreemptiveIsPatient(key, P, u);
      AfterPrefix(sc, P, |tl|, u + 1);
      PatientPrefix(key, P, After(sc, P, u + 1).value.timeline, tl, u);
    }
  }

  lemma PatientPrefix(key: Key, P: Table, a: seq<int>, b: seq<int>, t: nat)
    requires 0 < t < |a| <= |b| && a == b[..|a|] && PatientTick(key, P, a, t)
    ensures PatientTick(key, P, b, t)
  {
    var x, y := IndexOf(P, b[t - 1]), IndexOf(P, b[t]);
    if x >= 0 { PlayedPrefix(P[x], a, b, t); }
    if y >= 0 { PlayedPrefix(P[y], a, b, t); }
  }

  /** SRTF and preemptive priority: at most two switches per process but one, over any run. */
  lemma PreemptionBound(key: Key, P: Table)
    requires Fresh(P) && |P| > 0 && (key == ByRemaining || key == ByPriority) && Run(Preemptive(key), P).Some?
    ensures Run(Preemptive(key), P).value.switches <= 2 * (|P| - 1)
  {
    OnlyArrivalsDisplace(key, P);
    AcceptedRun(Preemptive(key), P);
    PatientBound(key, P, Run(Preemptive(key), P).value.timeline);
  }
}
