/** When one policy is another: schedulers kept in step have the same runs. */
module Reductions {
  import opened Processes
  import opened Engine
  import opened Timelines
  import opened WorkConservation
  import opened ReadyLists
  import opened MultiQueue
  import RoundRobin
  import Fcfs
  import Mlq
  import Mlfq

  /** One tick from related states: the same choice, and related states after it. */
  ghost predicate SameTick<S, T>(a: Scheduler<S>, b: Scheduler<T>, rel: (S, T, Table, int) -> bool,
                                 s: S, u: T, ps: Table, cur: int, tick: nat) {
    var (s', next) := a.pickNext(Admit(a, s, ps, tick, |ps|), ps, cur, tick);
    var (u', next') := b.pickNext(Admit(b, u, ps, tick, |ps|), ps, cur, tick);
    && next == next'
    && (next == IDLE || Runnable(ps, next, tick) ==>
          rel(Settle(a, s', ps, next, tick), Settle(b, u', ps, next, tick), Execute(ps, next, tick), tick + 1))
  }

  ghost predicate InStep<S(!new), T(!new)>(a: Scheduler<S>, b: Scheduler<T>, rel: (S, T, Table, int) -> bool) {
    forall s: S, u: T, ps: Table, cur: int, tick: nat ::
      MidRun(ps, tick) && rel(s, u, ps, tick) ==> SameTick(a, b, rel, s, u, ps, cur, tick)
  }

  /** Equal in everything but the scheduler's own state. */
  predicate SameSim<S, T>(x: Option<Sim<S>>, y: Option<Sim<T>>) {
    && (x.Some? <==> y.Some?)
    && (x.Some? ==>
          && x.value.procs == y.value.procs && x.value.current == y.value.current
          && x.value.completed == y.value.completed && x.value.timeline == y.value.timeline
          && x.value.switches == y.value.switches)
  }

  ghost predicate Tuned<S, T>(rel: (S, T, Table, int) -> bool, x: Option<Sim<S>>, y: Option<Sim<T>>, t: nat) {
    && SameSim(x, y)
    && (x.Some? ==>
          && |x.value.timeline| == t && MidRun(x.value.procs, t) && rel(x.value.st, y.value.st, x.value.procs, t))
  }

  lemma {:induction false} Lockstep<S(!new), T(!new)>(a: Scheduler<S>, b: Scheduler<T>, P: Table,
                                                      rel: (S, T, Table, int) -> bool, t: nat)
    requires Fresh(P) && rel(a.init(P), b.init(P), P, 0) && InStep(a, b, rel)
    ensures Tuned(rel, After(a, P, t), After(b, P, t), t)
  {
    if t > 0 {
      Lockstep(a, b, P, rel, t - 1);
      var x, y := After(a, P, t - 1), After(b, P, t - 1);
      if x.Some? { LockstepTick(a, b, rel, x.value, y.value); }
    }
  }

  lemma LockstepTick<S(!new), T(!new)>(a: Scheduler<S>, b: Scheduler<T>, rel: (S, T, Table, int) -> bool,
                                       x: Sim<S>, y: Sim<T>)
    requires InStep(a, b, rel) && Tuned(rel, Some(x), Some(y), |x.timeline|)
    ensures Tuned(rel, Step(a, x), Step(b, y), |x.timeline| + 1)
  {
    assert SameTick(a, b, rel, x.st, y.st, x.procs, x.current, |x.timeline|);
    if Step(a, x).Some? { ExecuteMidRun(x.procs, Choice(a, x).1, |x.timeline|); }
  }

  lemma SameRuns<S(!new), T(!new)>(a: Scheduler<S>, b: Scheduler<T>, P: Table, rel: (S, T, Table, int) -> bool)
    requires Fresh(P) && rel(a.init(P), b.init(P), P, 0) && InStep(a, b, rel)
    ensures SameSim(Run(a, P), Run(b, P))
  {
    RunIffStops(a, P);
    RunIffStops(b, P);
    forall t: nat
      ensures SameSim(After(a, P, t), After(b, P, t)) && Running(a, P, t) == Running(b, P, t)
    {
      Lockstep(a, b, P, rel, t);
    }
    if t: nat :| StopsAt(a, P, t) {
      assert forall u :: 0 <= u < t ==> Running(a, P, u);
      assert StopsAt(b, P, t);
    }
    if t: nat :| StopsAt(b, P, t) {
      assert forall u :: 0 <= u < t ==> Running(b, P, u);
      assert StopsAt(a, P, t);
    }
  }

  // ---------- Round Robin with a long quantum is FCFS ----------

  ghost predicate BurstsAtMost(ps: Table, q: int) {
    forall i :: 0 <= i < |ps| ==> ps[i].burst <= q
  }

  function RemainingOf(ps: Table, pid: int): int {
    var k := IndexOf(ps, pid);
    if k < 0 then 0 else ps[k].remaining
  }

  lemma RemainingAfter(ps: Table, next: int, tick: nat)
    requires MidRun(ps, tick) && Runnable(ps, next, tick) && next != IDLE
    ensures var after := Execute(ps, next, tick);
            && RemainingOf(after, next) == RemainingOf(ps, next) - 1
            && (Finishes(ps, next) <==> RemainingOf(ps, next) == 1)
            && forall q :: BurstsAtMost(ps, q) ==> BurstsAtMost(after, q)
  {
    SameIndex(ps, Execute(ps, next, tick), next);
  }

  /** Same queue, same process on the CPU, and its slice outlasts what it still needs. */
  ghost predicate RrFcfs(q: int, r: RoundRobin.State, f: Fcfs.State, ps: Table) {
    && r.quantum == q > 0 && BurstsAtMost(ps, q)
    && f.head <= |f.queue| && r.running == f.running && r.queue == Fcfs.Waiting(f)
    && (r.running != IDLE ==> r.left >= RemainingOf(ps, r.running) >= 1)
  }

  ghost function RrFcfsF(q: int): (RoundRobin.State, Fcfs.State, Table, int) -> bool {
    (r, f, ps, tick) => RrFcfs(q, r, f, ps)
  }

  lemma RrFcfsTick(q: int, r: RoundRobin.State, f: Fcfs.State, ps: Table, cur: int, tick: nat)
    requires MidRun(ps, tick) && RrFcfs(q, r, f, ps)
    ensures SameTick(RoundRobin.Rr(q), Fcfs.FcfsScheduler(), RrFcfsF(q), r, f, ps, cur, tick)
  {
    RoundRobin.Admits(q, r, ps, tick, |ps|);
    Fcfs.Admits(f, ps, tick, |ps|);
    var r1, f1 := r.(queue := r.queue + Arriving(ps, tick)), f.(queue := f.queue + Arriving(ps, tick));
    RrFcfsPick(r1, f1);
    var next := RoundRobin.PickNext(r1).1;
    if next != IDLE && Runnable(ps, next, tick) {
      RemainingAfter(ps, next, tick);
    }
  }

  lemma RrFcfsPick(r: RoundRobin.State, f: Fcfs.State)
    requires f.head <= |f.queue| && r.running == f.running && r.queue == Fcfs.Waiting(f)
    requires r.running != IDLE ==> r.left > 0
    ensures var (r', next) := RoundRobin.PickNext(r); var (f', next') := Fcfs.PickNext(f);
            && next == next' && f'.head <= |f'.queue| && r'.running == f'.running && r'.queue == Fcfs.Waiting(f')
            && r'.quantum == r.quantum && r'.left == (if r.running != IDLE || r.queue == [] then r.left else r.quantum)
  {
  }

  /** Round Robin whose quantum is at least the longest burst produces FCFS's run. */
  lemma LongQuantumIsFcfs(q: int, P: Table)
    requires Fresh(P) && q > 0 && BurstsAtMost(P, q)
    ensures SameSim(Run(RoundRobin.Rr(q), P), Run(Fcfs.FcfsScheduler(), P))
  {
    forall r, f, ps, cur, tick: nat | MidRun(ps, tick) && RrFcfsF(q)(r, f, ps, tick)
      ensures SameTick(RoundRobin.Rr(q), Fcfs.FcfsScheduler(), RrFcfsF(q), r, f, ps, cur, tick)
    {
      RrFcfsTick(q, r, f, ps, cur, tick);
    }
    SameRuns(RoundRobin.Rr(q), Fcfs.FcfsScheduler(), P, RrFcfsF(q));
  }

  // ---------- MLQ with everybody in one queue is that queue's policy ----------

  ghost predicate AllInQueue(ps: Table, c: int) {
    forall i :: 0 <= i < |ps| ==> ps[i].queue == c
  }

  /** Only level `c` is in use. */
  predicate OnlyLevel(m: Queues, c: int) {
    && m.saved == Levels(0, 0, 0)
    && (c == 0 || m.q.l0 == []) && (c == 1 || m.q.l1 == []) && (c == 2 || m.q.l2 == [])
  }

  ghost predicate MlqRr(c: int, s: State, r: RoundRobin.State, ps: Table) {
    && AllInQueue(ps, c) && OnlyLevel(s.m, c) && r.quantum == Mlq.LEVEL_QUANTUM.At(c)
    && s.running == r.running && s.m.q.At(c) == r.queue
    && (s.running != IDLE ==> s.level == c && s.left == r.left >= 1)
  }

  ghost function MlqRrF(c: int): (State, RoundRobin.State, Table, int) -> bool {
    (s, r, ps, tick) => MlqRr(c, s, r, ps)
  }

  lemma {:induction false} MlqAdmitsOneLevel(c: int, s: State, ps: Table, tick: int, k: nat)
    requires 0 <= c <= 2 && k <= |ps| && AllInQueue(ps, c)
    ensures Admit(Mlq.MlqScheduler(), s, ps, tick, k)
         == s.(m := s.m.(q := s.m.q.With(c, s.m.q.At(c) + ArrivingPids(ps, tick, k))))
  {
    var q := s.m.q.At(c);
    if k == 0 {
      assert q + [] == q;
    } else {
      MlqAdmitsOneLevel(c, s, ps, tick, k - 1);
      assert q + (ArrivingPids(ps, tick, k - 1) + [ps[k - 1].pid])
             == q + ArrivingPids(ps, tick, k - 1) + [ps[k - 1].pid];
    }
  }

  lemma MlqRrTick(c: int, s: State, r: RoundRobin.State, ps: Table, cur: int, tick: nat)
    requires 0 <= c <= 1 && MidRun(ps, tick) && MlqRr(c, s, r, ps)
    ensures SameTick(Mlq.MlqScheduler(), RoundRobin.Rr(Mlq.LEVEL_QUANTUM.At(c)), MlqRrF(c), s, r, ps, cur, tick)
  {
    MlqAdmitsOneLevel(c, s, ps, tick, |ps|);
    RoundRobin.Admits(Mlq.LEVEL_QUANTUM.At(c), r, ps, tick, |ps|);
  }

  /** MLQ with every process in queue 0 is Round Robin with quantum 2; in queue 1, with quantum 4. */
  lemma MlqOneLevelIsRr(c: int, P: Table)
    requires Fresh(P) && 0 <= c <= 1 && AllInQueue(P, c)
    ensures SameSim(Run(Mlq.MlqScheduler(), P), Run(RoundRobin.Rr(if c == 0 then 2 else 4), P))
  {
    var q := Mlq.LEVEL_QUANTUM.At(c);
    forall s, r, ps, cur, tick: nat | MidRun(ps, tick) && MlqRrF(c)(s, r, ps, tick)
      ensures SameTick(Mlq.MlqScheduler(), RoundRobin.Rr(q), MlqRrF(c), s, r, ps, cur, tick)
    {
      MlqRrTick(c, s, r, ps, cur, tick);
    }
    SameRuns(Mlq.MlqScheduler(), RoundRobin.Rr(q), P, MlqRrF(c));
  }

  ghost predicate MlqFcfs(s: State, f: Fcfs.State, ps: Table) {
    && AllInQueue(ps, 2) && OnlyLevel(s.m, 2)
    && f.head <= |f.queue| && s.running == f.running && s.m.q.l2 == Fcfs.Waiting(f)
    && (s.running != IDLE ==> s.level == 2)
  }

  ghost function MlqFcfsF(): (State, Fcfs.State, Table, int) -> bool {
    (s, f, ps, tick) => MlqFcfs(s, f, ps)
  }

  lemma MlqFcfsTick(s: State, f: Fcfs.State, ps: Table, cur: int, tick: nat)
    requires MidRun(ps, tick) && MlqFcfs(s, f, ps)
    ensures SameTick(Mlq.MlqScheduler(), Fcfs.FcfsScheduler(), MlqFcfsF(), s, f, ps, cur, tick)
  {
    MlqAdmitsOneLevel(2, s, ps, tick, |ps|);
    Fcfs.Admits(f, ps, tick, |ps|);
    var f1 := f.(queue := f.queue + Arriving(ps, tick));
    assert s.m.q.l2 + Arriving(ps, tick) == Fcfs.Waiting(f1);
    assert s.running == IDLE && Fcfs.Waiting(f1) != [] ==> Fcfs.Waiting(f1)[1..] == Fcfs.Waiting(Fcfs.PickNext(f1).0);
  }

  /** MLQ with every process in queue 2 is FCFS. */
  lemma MlqBottomIsFcfs(P: Table)
    requires Fresh(P) && AllInQueue(P, 2)
    ensures SameSim(Run(Mlq.MlqScheduler(), P), Run(Fcfs.FcfsScheduler(), P))
  {
    forall s, f, ps, cur, tick: nat | MidRun(ps, tick) && MlqFcfsF()(s, f, ps, tick)
      ensures SameTick(Mlq.MlqScheduler(), Fcfs.FcfsScheduler(), MlqFcfsF(), s, f, ps, cur, tick)
    {
      MlqFcfsTick(s, f, ps, cur, tick);
    }
    SameRuns(Mlq.MlqScheduler(), Fcfs.FcfsScheduler(), P, MlqFcfsF());
  }

  // ---------- MLFQ with short bursts is FCFS ----------

  /** Nobody has left the top level, which holds the ready list in table order. */
  ghost predicate MlfqFcfs(s: State, f: Fcfs.State, ps: Table, tick: int) {
    && BurstsAtMost(ps, 2) && OnlyLevel(s.m, 0)
    && f.head <= |f.queue| && s.running == f.running && s.m.q.l0 == Fcfs.Waiting(f)
    && OnCpu(f.running) + Fcfs.Waiting(f) == Ready(ps, tick - 1)
    && (s.running != IDLE ==> s.level == 0 && s.left >= RemainingOf(ps, s.running) >= 1)
  }

  ghost function MlfqFcfsF(): (State, Fcfs.State, Table, int) -> bool {
    (s, f, ps, tick) => MlfqFcfs(s, f, ps, tick)
  }

  /** The two picks, from a common ready list: a boost gives FCFS's order back. */
  lemma MlfqFcfsPick(s: State, f: Fcfs.State, ps: Table, tick: nat)
    requires MidRun(ps, tick) && BurstsAtMost(ps, 2) && OnlyLevel(s.m, 0)
    requires f.head <= |f.queue| && s.running == f.running && s.m.q.l0 == Fcfs.Waiting(f)
    requires OnCpu(f.running) + Fcfs.Waiting(f) == Ready(ps, tick)
    requires s.running != IDLE ==> s.level == 0 && s.left >= RemainingOf(ps, s.running) >= 1
    ensures var (s', next) := Mlfq.PickNext(s, ps, tick); var (f', next') := Fcfs.PickNext(f);
            && next == next' == s'.running == f'.running && OnlyLevel(s'.m, 0)
            && f'.head <= |f'.queue| && s'.m.q.l0 == Fcfs.Waiting(f')
            && OnCpu(next) + Fcfs.Waiting(f') == Ready(ps, tick)
            && (next != IDLE ==> Ready(ps, tick) != [] && Ready(ps, tick)[0] == next)
            && (next != IDLE ==> Runnable(ps, next, tick) && s'.level == 0 && s'.left >= RemainingOf(ps, next))
  {
    var l := Ready(ps, tick);
    Mlfq.OthersInOrder(ps, tick, s.running, |ps|);
    InReady(ps, tick, IDLE);
    if l != [] { ListsHead(l, ps, tick); Fcfs.PickIsHead(f); }
    if Mlfq.IsBoostTick(tick) {
      var c := Mlfq.Boost(s, ps, tick);
      assert l != [] ==> l == [l[0]] + l[1..];
      assert c.m.q.l0 == l;
    }
  }

  lemma MlfqFcfsAdmit(s: State, f: Fcfs.State, ps: Table, tick: nat)
    requires MidRun(ps, tick) && MlfqFcfs(s, f, ps, tick)
    ensures var s1, f1 := Mlfq.Admitted(s, ps, tick), f.(queue := f.queue + Arriving(ps, tick));
            && OnlyLevel(s1.m, 0) && f1.head <= |f1.queue| && s1.m.q.l0 == Fcfs.Waiting(f1)
            && OnCpu(f1.running) + Fcfs.Waiting(f1) == Ready(ps, tick)
  {
    WaitingGrows(f, Arriving(ps, tick));
    ReadySplit(ps, tick, |ps|);
    assert OnCpu(f.running) + (Fcfs.Waiting(f) + Arriving(ps, tick))
           == OnCpu(f.running) + Fcfs.Waiting(f) + Arriving(ps, tick);
  }

  lemma WaitingGrows(f: Fcfs.State, l: seq<int>)
    requires f.head <= |f.queue|
    ensures Fcfs.Waiting(f.(queue := f.queue + l)) == Fcfs.Waiting(f) + l
  {
  }

  lemma MlfqFcfsSettle(s: State, f: Fcfs.State, ps: Table, tick: nat)
    requires MidRun(ps, tick) && BurstsAtMost(ps, 2) && OnlyLevel(s.m, 0) && s.running == f.running != IDLE
    requires f.head <= |f.queue| && s.m.q.l0 == Fcfs.Waiting(f)
    requires OnCpu(f.running) + Fcfs.Waiting(f) == Ready(ps, tick) && Ready(ps, tick)[0] == s.running
    requires Runnable(ps, s.running, tick) && s.level == 0 && s.left >= RemainingOf(ps, s.running)
    ensures MlfqFcfs(Settle(Mlfq.MlfqScheduler(), s, ps, s.running, tick),
                     Settle(Fcfs.FcfsScheduler(), f, ps, s.running, tick), Execute(ps, s.running, tick), tick + 1)
  {
    RemainingAfter(ps, s.running, tick);
    ReadyHeadExecutes(ps, tick, s.running, |ps|);
    assert ([s.running] + Fcfs.Waiting(f))[1..] == Fcfs.Waiting(f);
  }

  lemma MlfqFcfsTick(s: State, f: Fcfs.State, ps: Table, cur: int, tick: nat)
    requires MidRun(ps, tick) && MlfqFcfs(s, f, ps, tick)
    ensures SameTick(Mlfq.MlfqScheduler(), Fcfs.FcfsScheduler(), MlfqFcfsF(), s, f, ps, cur, tick)
  {
    Mlfq.Admits(s, ps, tick, |ps|);
    Fcfs.Admits(f, ps, tick, |ps|);
    MlfqFcfsAdmit(s, f, ps, tick);
    var s1, f1 := Mlfq.Admitted(s, ps, tick), f.(queue := f.queue + Arriving(ps, tick));
    MlfqFcfsPick(s1, f1, ps, tick);
    var (s2, next) := Mlfq.PickNext(s1, ps, tick);
    if next != IDLE { MlfqFcfsSettle(s2, Fcfs.PickNext(f1).0, ps, tick); }
  }

  /** MLFQ on bursts of at most 2, boosts included, produces FCFS's run, and Round Robin's
      with quantum 2. */
  lemma ShortBurstMlfqIsFcfs(P: Table)
    requires Indexable(P) && BurstsAtMost(P, 2)
    ensures SameSim(Run(Mlfq.MlfqScheduler(), P), Run(Fcfs.FcfsScheduler(), P))
    ensures SameSim(Run(Mlfq.MlfqScheduler(), P), Run(RoundRobin.Rr(2), P))
  {
    NobodyYet(P, |P|);
    forall s, f, ps, cur, tick: nat | MidRun(ps, tick) && MlfqFcfsF()(s, f, ps, tick)
      ensures SameTick(Mlfq.MlfqScheduler(), Fcfs.FcfsScheduler(), MlfqFcfsF(), s, f, ps, cur, tick)
    {
      MlfqFcfsTick(s, f, ps, cur, tick);
    }
    SameRuns(Mlfq.MlfqScheduler(), Fcfs.FcfsScheduler(), P, MlfqFcfsF());
    LongQuantumIsFcfs(2, P);
  }
}
