/** What an accepted run means, whatever scheduler produced it: a legal timeline. */
module Timelines {
  import opened Processes
  import opened Engine

  /** One process after the first `t` ticks of a timeline. */
  function Played(p: Process, tl: seq<int>, t: nat): Process
    requires t <= |tl|
  {
    if t == 0 then p
    else if tl[t - 1] == p.pid then Ran(Played(p, tl, t - 1), t - 1)
    else Played(p, tl, t - 1)
  }

  /** How many of the first `t` ticks went to `pid`. */
  function TicksOf(tl: seq<int>, pid: int, t: nat): (c: nat)
    requires t <= |tl|
    ensures c <= t
  {
    if t == 0 then 0 else TicksOf(tl, pid, t - 1) + (if tl[t - 1] == pid then 1 else 0)
  }

  predicate ActiveAt(P: Table, tl: seq<int>, i: nat, t: nat)
    requires i < |P| && t <= |tl|
  {
    Active(Played(P[i], tl, t), t)
  }

  predicate LegalTick(P: Table, tl: seq<int>, t: nat)
    requires t < |tl|
  {
    tl[t] == IDLE || (IndexOf(P, tl[t]) >= 0 && ActiveAt(P, tl, IndexOf(P, tl[t]), t))
  }

  ghost predicate Legal(P: Table, tl: seq<int>) {
    forall t :: 0 <= t < |tl| ==> LegalTick(P, tl, t)
  }

  /** After `t` ticks every process has finished. */
  ghost predicate AllDone(P: Table, tl: seq<int>, t: nat)
    requires t <= |tl|
  {
    forall i :: 0 <= i < |P| ==> Played(P[i], tl, t).remaining == 0
  }

  /** Legal, finished at the end and not before. */
  ghost predicate CompleteRun(P: Table, tl: seq<int>) {
    && Legal(P, tl) && AllDone(P, tl, |tl|)
    && forall t :: 0 <= t < |tl| ==> !AllDone(P, tl, t)
  }

  function DoneCount(ps: Table, k: nat): (c: nat)
    requires k <= |ps|
    ensures c <= k
    ensures c == k <==> forall i :: 0 <= i < k ==> ps[i].remaining == 0
  {
    if k == 0 then 0 else DoneCount(ps, k - 1) + (if ps[k - 1].remaining == 0 then 1 else 0)
  }

  /** Process-to-different-process transitions in the first `t` ticks. */
  function Switches(tl: seq<int>, t: nat): (c: nat)
    requires t <= |tl|
  {
    if t == 0 then 0
    else Switches(tl, t - 1) + IsSwitch(if t == 1 then IDLE else tl[t - 2], tl[t - 1])
  }

  lemma {:induction false} PlayedPrefix(p: Process, a: seq<int>, b: seq<int>, t: nat)
    requires t <= |a| && t <= |b| && a[..t] == b[..t]
    ensures Played(p, a, t) == Played(p, b, t)
    ensures forall pid :: TicksOf(a, pid, t) == TicksOf(b, pid, t)
    ensures Switches(a, t) == Switches(b, t)
  {
    if t > 0 {
      assert a[..t - 1] == a[..t][..t - 1] && b[..t - 1] == b[..t][..t - 1];
      assert forall i :: 0 <= i < t ==> a[i] == a[..t][i] && b[i] == b[..t][i];
      PlayedPrefix(p, a, b, t - 1);
    }
  }

  lemma {:induction false} PlayedStatic(p: Process, tl: seq<int>, t: nat)
    requires t <= |tl|
    ensures var q := Played(p, tl, t);
            q == p.(remaining := q.remaining, startTick := q.startTick, completion := q.completion)
    ensures Played(p, tl, t).remaining == p.remaining - TicksOf(tl, p.pid, t)
  {
    if t > 0 { PlayedStatic(p, tl, t - 1); }
  }

  /** The table `ps` is the loaded table `P` played along `tl` for `t` ticks. */
  ghost predicate PlayedTable(P: Table, tl: seq<int>, t: nat, ps: Table)
    requires t <= |tl|
  {
    |ps| == |P| && forall i :: 0 <= i < |P| ==> ps[i] == Played(P[i], tl, t)
  }

  /** The same processes, whatever has been run of them. */
  ghost predicate SameProcesses(P: Table, ps: Table) {
    && |ps| == |P|
    && forall i :: 0 <= i < |P| ==>
         && ps[i].pid == P[i].pid && ps[i].arrival == P[i].arrival && ps[i].burst == P[i].burst
         && ps[i].nice == P[i].nice && ps[i].queue == P[i].queue
  }

  lemma PlayedSame(P: Table, tl: seq<int>, t: nat, ps: Table)
    requires t <= |tl| && PlayedTable(P, tl, t, ps)
    ensures SameProcesses(P, ps)
  {
    forall i | 0 <= i < |P|
      ensures ps[i] == P[i].(remaining := ps[i].remaining, startTick := ps[i].startTick, completion := ps[i].completion)
    {
      PlayedStatic(P[i], tl, t);
    }
  }

  /** Executing `next` takes one tick from it and nothing from anybody else. */
  lemma ExecuteOne(ps: Table, next: int, tick: nat, i: nat)
    requires MidRun(ps, tick) && i < |ps| && (next == IDLE || Runnable(ps, next, tick))
    ensures var p, p' := ps[i], Execute(ps, next, tick)[i];
            && p'.pid == p.pid && p'.arrival == p.arrival && p'.burst == p.burst
            && p'.remaining == p.remaining - (if next == p.pid then 1 else 0)
            && (next == p.pid ==> p.remaining > 0 && (Finishes(ps, next) <==> p.remaining == 1))
  {
    IndexOfOwn(ps, i);
  }

  lemma SameIndex(P: Table, ps: Table, pid: int)
    requires |P| == |ps| && forall i :: 0 <= i < |P| ==> ps[i].pid == P[i].pid
    ensures IndexOf(P, pid) == IndexOf(ps, pid)
  {
    var a, b := IndexOf(P, pid), IndexOf(ps, pid);
    assert a >= 0 ==> ps[a].pid == pid;
    assert b >= 0 ==> P[b].pid == pid;
  }

  lemma {:induction false} DoneCountUpdate(ps: Table, i: nat, p: Process, k: nat)
    requires i < |ps| && k <= |ps|
    ensures DoneCount(ps[i := p], k) == DoneCount(ps, k)
         + (if i < k then (if p.remaining == 0 then 1 else 0) - (if ps[i].remaining == 0 then 1 else 0) else 0)
  {
    if k > 0 { DoneCountUpdate(ps, i, p, k - 1); }
  }

  /** Executing one choice on a played table extends the timeline that it was played along. */
  lemma {:induction false} ExecutePlays(P: Table, tl: seq<int>, ps: Table, next: int)
    requires Sorted(P) && (forall i :: 0 <= i < |P| ==> 1 <= P[i].pid)
    requires PlayedTable(P, tl, |tl|, ps)
    ensures PlayedTable(P, tl + [next], |tl| + 1, Execute(ps, next, |tl|))
    ensures IndexOf(P, next) == IndexOf(ps, next)
  {
    var t := |tl|;
    forall i | 0 <= i < |P|
      ensures ps[i].pid == P[i].pid
      ensures Execute(ps, next, t)[i] == Played(P[i], tl + [next], t + 1)
    {
      PlayedStatic(P[i], tl, t);
      PlayedPrefix(P[i], tl, tl + [next], t);
      forall j | 0 <= j < |P| ensures ps[j].pid == P[j].pid { PlayedStatic(P[j], tl, t); }
      SameIndex(P, ps, next);
      if P[i].pid == next { IndexOfOwn(P, i); }
    }
    SameIndex(P, ps, next);
  }

  /** Every run of every scheduler is a legal timeline, and everything the engine keeps is
      determined by it: the table, the number finished, the switch count. */
  lemma {:induction false} Ledger<S>(sc: Scheduler<S>, P: Table, t: nat)
    requires Fresh(P) && After(sc, P, t).Some?
    ensures var s := After(sc, P, t).value;
            && Legal(P, s.timeline)
            && PlayedTable(P, s.timeline, t, s.procs)
            && s.completed == DoneCount(s.procs, |P|)
            && s.switches == Switches(s.timeline, t)
            && s.current == (if t == 0 then IDLE else s.timeline[t - 1])
  {
    var s := After(sc, P, t).value;
    if t == 0 {
      NoneDone(P, |P|);
    } else {
      Ledger(sc, P, t - 1);
      var r := After(sc, P, t - 1).value;
      assert Step(sc, r) == Some(s);
      LedgerStep(sc, P, r, s);
    }
  }

  /** The last tick of a run of `t` ticks. */
  lemma Unroll<S>(sc: Scheduler<S>, P: Table, t: nat) returns (s: Sim<S>)
    requires Fresh(P) && t > 0 && After(sc, P, t).Some?
    ensures After(sc, P, t - 1) == Some(s) && Step(sc, s) == After(sc, P, t)
    ensures Legal(P, s.timeline) && PlayedTable(P, s.timeline, t - 1, s.procs)
    ensures After(sc, P, t).value.timeline == s.timeline + [Choice(sc, s).1]
  {
    Ledger(sc, P, t - 1);
    s := After(sc, P, t - 1).value;
  }

  lemma {:induction false} NoneDone(P: Table, k: nat)
    requires Fresh(P) && k <= |P|
    ensures DoneCount(P, k) == 0
  {
    if k > 0 { NoneDone(P, k - 1); }
  }

  lemma {:induction false} LedgerStep<S>(sc: Scheduler<S>, P: Table, r: Sim<S>, s: Sim<S>)
    requires Fresh(P) && Step(sc, r) == Some(s)
    requires Legal(P, r.timeline) && PlayedTable(P, r.timeline, |r.timeline|, r.procs)
    requires r.completed == DoneCount(r.procs, |P|) && r.switches == Switches(r.timeline, |r.timeline|)
    requires r.current == (if |r.timeline| == 0 then IDLE else r.timeline[|r.timeline| - 1])
    ensures Legal(P, s.timeline) && PlayedTable(P, s.timeline, |s.timeline|, s.procs)
    ensures s.completed == DoneCount(s.procs, |P|) && s.switches == Switches(s.timeline, |s.timeline|)
    ensures s.current == s.timeline[|s.timeline| - 1]
  {
    var next := StepShape(sc, r, s);
    TableStep(P, r.timeline, r.procs, next);
    SwitchesStep(r.timeline, next);
  }

  lemma StepShape<S>(sc: Scheduler<S>, r: Sim<S>, s: Sim<S>) returns (next: int)
    requires Step(sc, r) == Some(s)
    ensures next == Choice(sc, r).1 == s.current
    ensures next == IDLE || Runnable(r.procs, next, |r.timeline|)
    ensures s.timeline == r.timeline + [next]
    ensures s.procs == Execute(r.procs, next, |r.timeline|)
    ensures s.completed == r.completed + (if Finishes(r.procs, next) then 1 else 0)
    ensures s.switches == r.switches + IsSwitch(r.current, next)
  {
    next := Choice(sc, r).1;
  }

  lemma SwitchesStep(tl: seq<int>, next: int)
    ensures Switches(tl + [next], |tl| + 1)
         == Switches(tl, |tl|) + IsSwitch(if |tl| == 0 then IDLE else tl[|tl| - 1], next)
  {
    PlayedPrefix(Process(0, 0, 0, 0, 0, 0, 0, 0, 0), tl, tl + [next], |tl|);
  }

  lemma {:induction false} TableStep(P: Table, tl: seq<int>, ps: Table, next: int)
    requires Fresh(P) && Legal(P, tl) && PlayedTable(P, tl, |tl|, ps)
    requires next == IDLE || Runnable(ps, next, |tl|)
    ensures Legal(P, tl + [next])
    ensures PlayedTable(P, tl + [next], |tl| + 1, Execute(ps, next, |tl|))
    ensures DoneCount(Execute(ps, next, |tl|), |P|) == DoneCount(ps, |P|) + (if Finishes(ps, next) then 1 else 0)
  {
    ExecutePlays(P, tl, ps, next);
    var k := IndexOf(ps, next);
    if next != IDLE {
      DoneCountUpdate(ps, k, Ran(ps[k], |tl|), |P|);
      PlayedStatic(P[k], tl, |tl|);
    }
    LegalExtends(P, tl, next);
  }

  lemma LegalExtends(P: Table, tl: seq<int>, next: int)
    requires Legal(P, tl)
    requires next != IDLE ==> IndexOf(P, next) >= 0 && ActiveAt(P, tl, IndexOf(P, next), |tl|)
    ensures Legal(P, tl + [next])
  {
    var ext := tl + [next];
    forall u | 0 <= u < |ext|
      ensures LegalTick(P, ext, u)
    {
      if u < |tl| { assert LegalTick(P, tl, u); }
      var k := IndexOf(P, ext[u]);
      if ext[u] != IDLE { PlayedPrefix(P[k], tl, ext, u); }
    }
  }

  /** What the engine has written for process `i` after `t` ticks. */
  ghost predicate Bookkept(P: Table, tl: seq<int>, i: nat, t: nat)
    requires i < |P| && t <= |tl|
  {
    var p, q, c := P[i], Played(P[i], tl, t), TicksOf(tl, P[i].pid, t);
    && 0 <= q.remaining == p.burst - c
    && (q.startTick == NOT_STARTED <==> c == 0)
    && (c > 0 ==>
          && p.arrival <= q.startTick && 0 <= q.startTick && q.startTick + c <= t
          && tl[q.startTick] == p.pid && TicksOf(tl, p.pid, q.startTick) == 0)
    && (q.completion == NOT_STARTED <==> q.remaining > 0)
    && (q.remaining == 0 ==>
          && q.startTick + p.burst <= q.completion && 1 <= q.completion <= t
          && tl[q.completion - 1] == p.pid && TicksOf(tl, p.pid, q.completion) == p.burst)
  }

  /** Each process is charged one tick of burst per timeline entry, starts at its first and
      completes just after its last. */
  lemma {:induction false} Books(P: Table, tl: seq<int>, i: nat, t: nat)
    requires Fresh(P) && Legal(P, tl) && i < |P| && t <= |tl|
    ensures Bookkept(P, tl, i, t)
  {
    if t > 0 {
      Books(P, tl, i, t - 1);
      assert LegalTick(P, tl, t - 1);
      IndexOfOwn(P, i);
      PlayedStatic(P[i], tl, t - 1);
      PlayedStatic(P[i], tl, t);
    }
  }

  function SumBurst(P: Table, k: nat): int
    requires k <= |P|
  {
    if k == 0 then 0 else SumBurst(P, k - 1) + P[k - 1].burst
  }

  function BusyTicks(tl: seq<int>, t: nat): (c: nat)
    requires t <= |tl|
  {
    if t == 0 then 0 else BusyTicks(tl, t - 1) + (if tl[t - 1] != IDLE then 1 else 0)
  }

  /** The ticks given to the first `k` processes together. */
  function SumTicks(P: Table, tl: seq<int>, t: nat, k: nat): nat
    requires k <= |P| && t <= |tl|
  {
    if k == 0 then 0 else SumTicks(P, tl, t, k - 1) + TicksOf(tl, P[k - 1].pid, t)
  }

  lemma {:induction false} SumTicksStep(P: Table, tl: seq<int>, t: nat, k: nat)
    requires Sorted(P) && k <= |P| && t < |tl|
    ensures SumTicks(P, tl, t + 1, k) == SumTicks(P, tl, t, k) + (if 0 <= IndexOf(P, tl[t]) < k then 1 else 0)
  {
    if k > 0 {
      SumTicksStep(P, tl, t, k - 1);
      IndexOfOwn(P, k - 1);
    }
  }

  /** Every busy tick is some process's tick. */
  lemma {:induction false} BusyIsExecuted(P: Table, tl: seq<int>, t: nat)
    requires Fresh(P) && Legal(P, tl) && t <= |tl|
    ensures BusyTicks(tl, t) == SumTicks(P, tl, t, |P|)
  {
    if t == 0 {
      SumTicksZero(P, tl, |P|);
    } else {
      BusyIsExecuted(P, tl, t - 1);
      assert LegalTick(P, tl, t - 1);
      SumTicksStep(P, tl, t - 1, |P|);
    }
  }

  lemma {:induction false} SumTicksZero(P: Table, tl: seq<int>, k: nat)
    requires k <= |P|
    ensures SumTicks(P, tl, 0, k) == 0
  {
    if k > 0 { SumTicksZero(P, tl, k - 1); }
  }

  lemma {:induction false} SumTicksAllDone(P: Table, tl: seq<int>, t: nat, k: nat)
    requires Fresh(P) && Legal(P, tl) && t <= |tl| && AllDone(P, tl, t) && k <= |P|
    ensures SumTicks(P, tl, t, k) == SumBurst(P, k)
  {
    if k > 0 {
      SumTicksAllDone(P, tl, t, k - 1);
      Books(P, tl, k - 1, t);
    }
  }

  /** The tick at which everything is done is where the run stops. */
  lemma DoneIff(P: Table, tl: seq<int>, t: nat, ps: Table)
    requires t <= |tl| && PlayedTable(P, tl, t, ps)
    ensures DoneCount(ps, |P|) >= |P| <==> AllDone(P, tl, t)
  {
    assert DoneCount(ps, |P|) == |P| <==> forall i :: 0 <= i < |P| ==> ps[i].remaining == 0;
    if AllDone(P, tl, t) {
      assert forall i :: 0 <= i < |P| ==> ps[i].remaining == 0;
    } else {
      var i :| 0 <= i < |P| && Played(P[i], tl, t).remaining != 0;
      assert ps[i].remaining != 0;
    }
  }

  /** A run that returns 0 is a complete legal timeline, of at most `MAX_TICKS` ticks, and
      its table, switch count and busy ticks are those of that timeline. */
  lemma AcceptedRun<S>(sc: Scheduler<S>, P: Table)
    requires Fresh(P) && Run(sc, P).Some?
    ensures var s := Run(sc, P).value;
            && CompleteRun(P, s.timeline) && |s.timeline| <= MAX_TICKS
            && PlayedTable(P, s.timeline, |s.timeline|, s.procs)
            && s.switches == Switches(s.timeline, |s.timeline|)
            && BusyTicks(s.timeline, |s.timeline|) == SumBurst(P, |P|)
  {
    RunIffStops(sc, P);
    var s := Run(sc, P).value;
    var T := |s.timeline|;
    Ledger(sc, P, T);
    DoneIff(P, s.timeline, T, s.procs);
    forall t | 0 <= t < T
      ensures !AllDone(P, s.timeline, t)
    {
      assert Running(sc, P, t);
      StillRunning(sc, P, t, T);
    }
    BusyIsExecuted(P, s.timeline, T);
    SumTicksAllDone(P, s.timeline, T, |P|);
  }

  lemma {:induction false} StillRunning<S>(sc: Scheduler<S>, P: Table, t: nat, T: nat)
    requires Fresh(P) && t <= T && After(sc, P, T).Some?
    ensures After(sc, P, t).Some?
    ensures Running(sc, P, t) <==> !AllDone(P, After(sc, P, T).value.timeline, t)
  {
    AfterPrefix(sc, P, T, t);
    Ledger(sc, P, t);
    var s, full := After(sc, P, t).value, After(sc, P, T).value.timeline;
    DoneIff(P, s.timeline, t, s.procs);
    forall i | 0 <= i < |P|
      ensures Played(P[i], full, t) == Played(P[i], s.timeline, t)
    {
      PlayedPrefix(P[i], full, s.timeline, t);
    }
  }

  lemma {:induction false} DoneStays(p: Process, tl: seq<int>, t: nat, u: nat)
    requires t <= u <= |tl| && Played(p, tl, t).remaining == 0 && Played(p, tl, u).remaining >= 0
    requires forall v :: t <= v <= u ==> Played(p, tl, v).remaining >= 0
    ensures Played(p, tl, u) == Played(p, tl, t)
  {
    if t < u { DoneStays(p, tl, t, u - 1); }
  }

  /** In an accepted run, a process that needs nothing more after `t` ticks completed by then. */
  lemma CompletesBy<S>(sc: Scheduler<S>, P: Table, i: nat, t: nat)
    requires Fresh(P) && i < |P| && Run(sc, P).Some?
    requires After(sc, P, t).Some? && After(sc, P, t).value.procs[i].remaining <= 0
    ensures Run(sc, P).value.procs[i].completion <= t
  {
    AcceptedRun(sc, P);
    RunIffStops(sc, P);
    var s := Run(sc, P).value;
    var T := |s.timeline|;
    Books(P, s.timeline, i, T);
    if t < T {
      AfterPrefix(sc, P, T, t);
      Ledger(sc, P, t);
      PlayedPrefix(P[i], s.timeline, After(sc, P, t).value.timeline, t);
      Books(P, s.timeline, i, t);
      forall v | t <= v <= T ensures Played(P[i], s.timeline, v).remaining >= 0 { Books(P, s.timeline, i, v); }
      DoneStays(P[i], s.timeline, t, T);
    }
  }

  /** In an accepted run, a process that still needs something after `t` ticks completes later. */
  lemma CompletesAfter<S>(sc: Scheduler<S>, P: Table, i: nat, t: nat)
    requires Fresh(P) && i < |P| && Run(sc, P).Some?
    requires After(sc, P, t).Some? && After(sc, P, t).value.procs[i].remaining > 0
    ensures Run(sc, P).value.procs[i].completion > t
  {
    AcceptedRun(sc, P);
    RunIffStops(sc, P);
    var s := Run(sc, P).value;
    var T := |s.timeline|;
    Ledger(sc, P, t);
    if T <= t {
      AfterPrefix(sc, P, t, T);
      var long := After(sc, P, t).value.timeline;
      PlayedPrefix(P[i], long, s.timeline, T);
      RemainingFalls(P[i], long, T, t);
    } else {
      AfterPrefix(sc, P, T, t);
      PlayedPrefix(P[i], s.timeline, After(sc, P, t).value.timeline, t);
      Books(P, s.timeline, i, T);
      var c := s.procs[i].completion;
      if c <= t {
        RemainingFalls(P[i], s.timeline, c, t);
        Books(P, s.timeline, i, c);
      }
    }
  }

  lemma {:induction false} RemainingFalls(p: Process, tl: seq<int>, a: nat, b: nat)
    requires a <= b <= |tl|
    ensures Played(p, tl, b).remaining <= Played(p, tl, a).remaining
  {
    if a < b { RemainingFalls(p, tl, a, b - 1); }
  }

  /** A scheduler that replays a given timeline. */
  function Oracle(tl: seq<int>): Scheduler<int> {
    Scheduler(
      _ => 0,
      (k, _, _, _) => k,
      (k, _, _, _) => (k + 1, if 0 <= k < |tl| then tl[k] else IDLE),
      (k, _, _, _) => k,
      (k, _, _, _) => k)
  }

  lemma {:induction false} OracleAdmits(tl: seq<int>, st: int, ps: Table, tick: int, k: nat)
    requires k <= |ps|
    ensures Admit(Oracle(tl), st, ps, tick, k) == st
  {
    if k > 0 { OracleAdmits(tl, st, ps, tick, k - 1); }
  }

  lemma {:induction false} OracleAfter(P: Table, tl: seq<int>, t: nat)
    requires Fresh(P) && Legal(P, tl) && t <= |tl|
    ensures var r := After(Oracle(tl), P, t); r.Some? && r.value.timeline == tl[..t] && r.value.st == t
  {
    if t > 0 {
      OracleAfter(P, tl, t - 1);
      Ledger(Oracle(tl), P, t - 1);
      OracleStep(P, tl, t - 1, After(Oracle(tl), P, t - 1).value);
      assert tl[..t] == tl[..t - 1] + [tl[t - 1]];
    }
  }

  lemma OracleStep(P: Table, tl: seq<int>, t: nat, s: Sim<int>)
    requires Fresh(P) && Legal(P, tl) && t < |tl| && s.timeline == tl[..t] && s.st == t
    requires PlayedTable(P, s.timeline, t, s.procs)
    ensures var r := Step(Oracle(tl), s); r.Some? && r.value.timeline == tl[..t] + [tl[t]] && r.value.st == t + 1
  {
    OracleAdmits(tl, s.st, s.procs, t, |s.procs|);
    LegalIsRunnable(P, tl, t, s.timeline, s.procs);
  }

  lemma LegalIsRunnable(P: Table, tl: seq<int>, t: nat, prefix: seq<int>, ps: Table)
    requires Fresh(P) && Legal(P, tl) && t < |tl| && prefix == tl[..t] && PlayedTable(P, prefix, t, ps)
    ensures tl[t] == IDLE || Runnable(ps, tl[t], t)
  {
    assert LegalTick(P, tl, t);
    if tl[t] != IDLE {
      var k := IndexOf(P, tl[t]);
      ExecutePlays(P, prefix, ps, tl[t]);
      PlayedPrefix(P[k], prefix, tl, t);
      PlayedStatic(P[k], tl, t);
    }
  }

  /** The other direction: every complete legal timeline within the cap is accepted from
      some scheduler. With `AcceptedRun`, the accepted runs are exactly these timelines. */
  lemma EveryTimelineIsAccepted(P: Table, tl: seq<int>)
    requires Fresh(P) && CompleteRun(P, tl) && |tl| <= MAX_TICKS
    ensures Run(Oracle(tl), P).Some? && Run(Oracle(tl), P).value.timeline == tl
  {
    var sc, T := Oracle(tl), |tl|;
    OracleAfter(P, tl, T);
    assert tl[..T] == tl;
    forall t | 0 <= t <= T
      ensures Running(sc, P, t) <==> t < T
    {
      StillRunning(sc, P, t, T);
    }
    assert !Running(sc, P, T);
    assert StopsAt(sc, P, T);
    RunIffStops(sc, P);
  }
}
