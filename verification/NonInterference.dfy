/** Deleting less urgent processes leaves the others' runs alone. */
module NonInterference {
  import opened Processes
  import opened Engine
  import opened Timelines
  import opened WorkConservation
  import opened ReadyLists
  import opened Selection
  import opened MultiQueue
  import opened Mlq

  /** Which processes stay in the smaller table. */
  datatype Cut = QueueAtMost(c: int) | PriorityAtMost(c: int)

  predicate Stays(cut: Cut, p: Process) {
    match cut
    case QueueAtMost(c) => p.queue <= c
    case PriorityAtMost(c) => p.priority <= c
  }

  /** The first `k` processes without those that the cut deletes. */
  function KeepTo(ps: Table, cut: Cut, k: nat): (r: Table)
    requires k <= |ps|
    ensures |r| <= k
  {
    if k == 0 then []
    else if Stays(cut, ps[k - 1]) then KeepTo(ps, cut, k - 1) + [ps[k - 1]]
    else KeepTo(ps, cut, k - 1)
  }

  function Keep(ps: Table, cut: Cut): Table { KeepTo(ps, cut, |ps|) }

  /** Where process `k` would land in the smaller table. */
  function Rank(ps: Table, cut: Cut, k: nat): nat
    requires k <= |ps|
  {
    |KeepTo(ps, cut, k)|
  }

  lemma {:induction false} KeepPrefix(ps: Table, cut: Cut, j: nat, k: nat)
    requires j <= k <= |ps|
    ensures KeepTo(ps, cut, j) <= KeepTo(ps, cut, k)
    ensures j < k && Stays(cut, ps[j]) ==>
              Rank(ps, cut, j) < Rank(ps, cut, k) && KeepTo(ps, cut, k)[Rank(ps, cut, j)] == ps[j]
  {
    if j < k { KeepPrefix(ps, cut, j, k - 1); }
  }

  /** Every entry of the smaller table is an entry of the larger one, in the same order. */
  lemma {:induction false} KeepIndex(ps: Table, cut: Cut, k: nat, i: nat) returns (j: nat)
    requires k <= |ps| && i < Rank(ps, cut, k)
    ensures j < k && Stays(cut, ps[j]) && Rank(ps, cut, j) == i && KeepTo(ps, cut, k)[i] == ps[j]
  {
    if i == Rank(ps, cut, k - 1) {
      j := k - 1;
    } else {
      j := KeepIndex(ps, cut, k - 1, i);
    }
  }

  lemma KeepSorted(ps: Table, cut: Cut)
    requires Sorted(ps)
    ensures Sorted(Keep(ps, cut))
  {
    var n := |ps|;
    forall i, i' | 0 <= i < i' < |Keep(ps, cut)|
      ensures Before(Keep(ps, cut)[i], Keep(ps, cut)[i']) && Keep(ps, cut)[i].pid != Keep(ps, cut)[i'].pid
    {
      var j := KeepIndex(ps, cut, n, i);
      var j' := KeepIndex(ps, cut, n, i');
      if j' < j { KeepPrefix(ps, cut, j', j); }
    }
  }

  lemma KeepMidRun(ps: Table, cut: Cut, tick: int)
    requires MidRun(ps, tick)
    ensures MidRun(Keep(ps, cut), tick)
  {
    KeepSorted(ps, cut);
    forall i | 0 <= i < |Keep(ps, cut)| ensures Keep(ps, cut)[i] in ps { var j := KeepIndex(ps, cut, |ps|, i); }
  }

  lemma KeepFresh(ps: Table, cut: Cut)
    requires Fresh(ps)
    ensures Fresh(Keep(ps, cut))
  {
    KeepSorted(ps, cut);
    forall i | 0 <= i < |Keep(ps, cut)| ensures Keep(ps, cut)[i] in ps { var j := KeepIndex(ps, cut, |ps|, i); }
  }

  predicate StaysPid(ps: Table, cut: Cut, pid: int) {
    var k := IndexOf(ps, pid);
    k >= 0 && Stays(cut, ps[k])
  }

  lemma {:induction false} KeepLookup(ps: Table, cut: Cut, pid: int)
    requires Sorted(ps)
    ensures IndexOf(Keep(ps, cut), pid)
         == if StaysPid(ps, cut, pid) then Rank(ps, cut, IndexOf(ps, pid)) else -1
    ensures StaysPid(ps, cut, pid) ==>
              Rank(ps, cut, IndexOf(ps, pid)) < |Keep(ps, cut)|
                  && Keep(ps, cut)[Rank(ps, cut, IndexOf(ps, pid))] == ps[IndexOf(ps, pid)]
  {
    KeepSorted(ps, cut);
    var k, i := IndexOf(ps, pid), IndexOf(Keep(ps, cut), pid);
    if StaysPid(ps, cut, pid) {
      KeepPrefix(ps, cut, k, |ps|);
      IndexOfOwn(Keep(ps, cut), Rank(ps, cut, k));
    } else if i >= 0 {
      var j := KeepIndex(ps, cut, |ps|, i);
      IndexOfOwn(ps, j);
    }
  }

  lemma {:induction false} KeepUpdate(ps: Table, cut: Cut, i: nat, p: Process, k: nat)
    requires i < |ps| && k <= |ps| && Stays(cut, p) == Stays(cut, ps[i])
    ensures Rank(ps[i := p], cut, k) == Rank(ps, cut, k)
    ensures KeepTo(ps[i := p], cut, k)
         == if i < k && Stays(cut, p) && Rank(ps, cut, i) < Rank(ps, cut, k)
             then KeepTo(ps, cut, k)[Rank(ps, cut, i) := p] else KeepTo(ps, cut, k)
  {
    if k > 0 {
      KeepUpdate(ps, cut, i, p, k - 1);
      if i < k - 1 { KeepPrefix(ps, cut, i, k - 1); }
    }
  }

  function Masked(ps: Table, cut: Cut, pid: int): int {
    if StaysPid(ps, cut, pid) then pid else IDLE
  }

  /** Executing in the larger table is executing, or idling, in the smaller one. */
  lemma KeepExecute(ps: Table, cut: Cut, next: int, tick: nat)
    requires MidRun(ps, tick) && (next == IDLE || Runnable(ps, next, tick))
    ensures Keep(Execute(ps, next, tick), cut) == Execute(Keep(ps, cut), Masked(ps, cut, next), tick)
    ensures Masked(ps, cut, next) != IDLE ==> Finishes(Keep(ps, cut), next) == Finishes(ps, next)
    ensures forall pid :: StaysPid(Execute(ps, next, tick), cut, pid) == StaysPid(ps, cut, pid)
  {
    KeepLookup(ps, cut, next);
    var k := IndexOf(ps, next);
    if next != IDLE {
      KeepUpdate(ps, cut, k, Ran(ps[k], tick), |ps|);
      if Stays(cut, ps[k]) { KeepPrefix(ps, cut, k, |ps|); }
    }
    forall pid ensures StaysPid(Execute(ps, next, tick), cut, pid) == StaysPid(ps, cut, pid) {
      SameIndex(ps, Execute(ps, next, tick), pid);
    }
  }

  // ---------- Two tables in step ----------

  /** One tick on both tables: the smaller run makes the masked choice. */
  ghost predicate HiddenTick<S>(sc: Scheduler<S>, cut: Cut, rel: (S, S, Table, int) -> bool,
                                s: S, u: S, ps: Table, cur: int, cur': int, tick: nat) {
    var small := Keep(ps, cut);
    var (s', next) := sc.pickNext(Admit(sc, s, ps, tick, |ps|), ps, cur, tick);
    var (u', next') := sc.pickNext(Admit(sc, u, small, tick, |small|), small, cur', tick);
    && (next == IDLE || Runnable(ps, next, tick))
    && next' == Masked(ps, cut, next)
    && (next' == IDLE || Runnable(small, next', tick))
    && rel(Settle(sc, s', ps, next, tick), Settle(sc, u', small, next', tick), Execute(ps, next, tick), tick + 1)
  }

  ghost predicate Hides<S(!new)>(sc: Scheduler<S>, cut: Cut, rel: (S, S, Table, int) -> bool) {
    forall s: S, u: S, ps: Table, cur: int, cur': int, tick: nat ::
      MidRun(ps, tick) && rel(s, u, ps, tick) ==> HiddenTick(sc, cut, rel, s, u, ps, cur, cur', tick)
  }

  function MaskedTimeline(P: Table, cut: Cut, tl: seq<int>): (r: seq<int>)
    ensures |r| == |tl|
    ensures forall i :: 0 <= i < |tl| ==> r[i] == Masked(P, cut, tl[i])
  {
    if tl == [] then [] else MaskedTimeline(P, cut, tl[..|tl| - 1]) + [Masked(P, cut, tl[|tl| - 1])]
  }

  /** The smaller run is the larger one with the deleted processes cut out. */
  ghost predicate Shadows<S>(P: Table, cut: Cut, rel: (S, S, Table, int) -> bool, x: Option<Sim<S>>,
      y: Option<Sim<S>>, t: nat) {
    && x.Some? && y.Some? && |x.value.timeline| == t && MidRun(x.value.procs, t)
    && (forall pid :: StaysPid(x.value.procs, cut, pid) == StaysPid(P, cut, pid))
    && y.value.procs == Keep(x.value.procs, cut)
    && y.value.timeline == MaskedTimeline(P, cut, x.value.timeline)
    && rel(x.value.st, y.value.st, x.value.procs, t)
  }

  lemma {:induction false} InShadow<S(!new)>(sc: Scheduler<S>, P: Table, cut: Cut,
      rel: (S, S, Table, int) -> bool, t: nat)
    requires Fresh(P) && Hides(sc, cut, rel) && rel(sc.init(P), sc.init(Keep(P, cut)), P, 0)
    ensures Shadows(P, cut, rel, After(sc, P, t), After(sc, Keep(P, cut), t), t)
  {
    if t > 0 {
      InShadow(sc, P, cut, rel, t - 1);
      ShadowTick(sc, P, cut, rel, After(sc, P, t - 1).value, After(sc, Keep(P, cut), t - 1).value);
    }
  }

  lemma ShadowTick<S(!new)>(sc: Scheduler<S>, P: Table, cut: Cut, rel: (S, S, Table, int) -> bool, x: Sim<S>, y: Sim<S>)
    requires Hides(sc, cut, rel) && Shadows(P, cut, rel, Some(x), Some(y), |x.timeline|)
    ensures Shadows(P, cut, rel, Step(sc, x), Step(sc, y), |x.timeline| + 1)
  {
    var tick := |x.timeline|;
    assert HiddenTick(sc, cut, rel, x.st, y.st, x.procs, x.current, y.current, tick);
    var next := Choice(sc, x).1;
    KeepExecute(x.procs, cut, next, tick);
    ExecuteMidRun(x.procs, next, tick);
    assert (x.timeline + [next])[..tick] == x.timeline;
  }

  // ---------- Preemptive priority ----------

  ghost function PriorityRel(cut: Cut): (int, int, Table, int) -> bool {
    (s, u, ps, tick) => RunsOn(s, ps, tick) && u == Masked(ps, cut, s)
  }

  /** The smaller table's scan finds the larger one's winner, or nobody. */
  lemma KeepBest(ps: Table, c: int, tick: nat)
    requires MidRun(ps, tick)
    ensures var cut, b := PriorityAtMost(c), Best(ps, tick, ByPriority, |ps|);
            var small := Keep(ps, cut);
            Best(small, tick, ByPriority, |small|) == if b >= 0 && Stays(cut, ps[b]) then Rank(ps, cut, b) else -1
  {
    var cut, b := PriorityAtMost(c), Best(ps, tick, ByPriority, |ps|);
    var small := Keep(ps, cut);
    forall i | 0 <= i < |small|
      ensures Active(small[i], tick) ==> b >= 0 && Stays(cut, ps[b]) && ps[b].priority <= small[i].priority
      ensures Active(small[i], tick) && b >= 0 && i < Rank(ps, cut, b) ==> ps[b].priority < small[i].priority
    {
      var j := KeepIndex(ps, cut, |ps|, i);
      if b >= 0 && b <= j { KeepPrefix(ps, cut, b, j); }
    }
    if b >= 0 && Stays(cut, ps[b]) {
      KeepPrefix(ps, cut, b, |ps|);
      BestUnique(small, tick, ByPriority, Rank(ps, cut, b));
    }
  }

  lemma KeepContend(ps: Table, c: int, tick: nat, s: int)
    requires MidRun(ps, tick) && RunsOn(s, ps, tick)
    ensures var cut := PriorityAtMost(c);
            var w, w' := Contend(ps, tick, ByPriority, s), Contend(Keep(ps, cut), tick, ByPriority, Masked(ps, cut, s));
            PidAt(Keep(ps, cut), w') == Masked(ps, cut, PidAt(ps, w))
  {
    var cut, b, w := PriorityAtMost(c), Best(ps, tick, ByPriority, |ps|), Contend(ps, tick, ByPriority, s);
    KeepBest(ps, c, tick);
    KeepLookup(ps, cut, s);
    if b >= 0 {
      IndexOfOwn(ps, b);
      KeepLookup(ps, cut, ps[b].pid);
    }
    if w >= 0 { IndexOfOwn(ps, w); }
  }

  lemma PriorityTick(c: int, s: int, u: int, ps: Table, cur: int, cur': int, tick: nat)
    requires MidRun(ps, tick) && RunsOn(s, ps, tick) && u == Masked(ps, PriorityAtMost(c), s)
    ensures HiddenTick(PriorityP(), PriorityAtMost(c), PriorityRel(PriorityAtMost(c)), s, u, ps, cur, cur', tick)
  {
    var cut := PriorityAtMost(c);
    var small := Keep(ps, cut);
    ScanAdmits(ByPriority, s, ps, tick, |ps|);
    ScanAdmits(ByPriority, u, small, tick, |small|);
    KeepContend(ps, c, tick, s);
    var w := Contend(ps, tick, ByPriority, s);
    if w >= 0 { IndexOfOwn(ps, w); }
    PrioritySettles(cut, ps, PidAt(ps, w), tick);
  }

  lemma MaskedRunnable(ps: Table, cut: Cut, next: int, tick: nat)
    requires MidRun(ps, tick) && (next == IDLE || Runnable(ps, next, tick))
    ensures MidRun(Keep(ps, cut), tick)
    ensures var next' := Masked(ps, cut, next); next' == IDLE || Runnable(Keep(ps, cut), next', tick)
  {
    KeepLookup(ps, cut, next);
    KeepMidRun(ps, cut, tick);
  }

  lemma PrioritySettles(cut: Cut, ps: Table, next: int, tick: nat)
    requires MidRun(ps, tick) && (next == IDLE || Runnable(ps, next, tick))
    ensures var next' := Masked(ps, cut, next);
            && (next' == IDLE || Runnable(Keep(ps, cut), next', tick))
            && PriorityRel(cut)(Settle(PriorityP(), next, ps, next, tick),
                                Settle(PriorityP(), next', Keep(ps, cut), next', tick), Execute(ps, next, tick),
                                    tick + 1)
  {
    MaskedRunnable(ps, cut, next, tick);
    KeepExecute(ps, cut, next, tick);
    PrioritySettlesTo(ps, next, tick);
    PrioritySettlesTo(Keep(ps, cut), Masked(ps, cut, next), tick);
    NobodyIsIdle(Execute(ps, next, tick), tick + 1);
  }

  lemma PrioritySettlesTo(ps: Table, next: int, tick: nat)
    requires MidRun(ps, tick) && (next == IDLE || Runnable(ps, next, tick))
    ensures Settle(PriorityP(), next, ps, next, tick) == (if Finishes(ps, next) then IDLE else next)
    ensures RunsOn(if Finishes(ps, next) then IDLE else next, Execute(ps, next, tick), tick + 1)
  {
    SettleRunning(PriorityP(), ps, next, tick);
  }

  lemma NobodyIsIdle(ps: Table, tick: int)
    requires MidRun(ps, tick)
    ensures IndexOf(ps, IDLE) == -1
  {
  }

  /** Under preemptive priority, at every tick, the run of the processes with priority number
      at most `c` is the same with and without the others. */
  lemma PriorityHides(P: Table, c: int, t: nat)
    requires Fresh(P)
    ensures var cut := PriorityAtMost(c);
            Shadows(P, cut, PriorityRel(cut), After(PriorityP(), P, t), After(PriorityP(), Keep(P, cut), t), t)
  {
    var cut := PriorityAtMost(c);
    forall s, u, ps, cur, cur', tick: nat | MidRun(ps, tick) && PriorityRel(cut)(s, u, ps, tick)
      ensures HiddenTick(PriorityP(), cut, PriorityRel(cut), s, u, ps, cur, cur', tick)
    {
      PriorityTick(c, s, u, ps, cur, cur', tick);
    }
    NobodyIsIdle(P, 0);
    InShadow(PriorityP(), P, cut, PriorityRel(cut), t);
  }

  // ---------- MLQ ----------

  function QueueOf(ps: Table, pid: int): int {
    var k := IndexOf(ps, pid);
    if k < 0 then -1 else ps[k].queue
  }

  ghost predicate HomeLevel(q: seq<int>, ps: Table, lv: int) {
    forall i :: 0 <= i < |q| ==> QueueOf(ps, q[i]) == lv
  }

  /** Everybody is queued, or runs from, the level the table assigned. */
  ghost predicate Home(s: State, ps: Table) {
    && HomeLevel(s.m.q.l0, ps, 0) && HomeLevel(s.m.q.l1, ps, 1) && HomeLevel(s.m.q.l2, ps, 2)
    && (s.running != IDLE ==> QueueOf(ps, s.running) == s.level)
  }

  predicate LevelShadow(c: int, lv: int, s: State, u: State) {
    if lv <= c then u.m.q.At(lv) == s.m.q.At(lv) && u.m.saved.At(lv) == s.m.saved.At(lv)
    else u.m.q.At(lv) == [] && u.m.saved.At(lv) == 0
  }

  /** The smaller state has the same top levels and nothing below them. */
  predicate StateShadow(c: int, s: State, u: State) {
    && LevelShadow(c, 0, s, u) && LevelShadow(c, 1, s, u) && LevelShadow(c, 2, s, u)
    && (if s.running != IDLE && s.level <= c
        then u.running == s.running && u.level == s.level && u.left == s.left
        else u.running == IDLE)
  }

  /** A pick on shadowed states stays shadowed and keeps everybody at home. */
  lemma PickShadow(c: int, s: State, u: State, ps: Table)
    requires SliceOk(s, LEVEL_QUANTUM) && Home(s, ps) && StateShadow(c, s, u) && NotQueued(s, IDLE)
    ensures var (s', next) := PickNext(s); var (u', next') := PickNext(u);
            Home(s', ps) && StateShadow(c, s', u') && next' == (if next != IDLE && s'.level <= c then next else IDLE)
  {
    if s.running != IDLE && 0 <= Highest(s.m) < s.level {
      PutBackHome(s, ps);
      PutBackShadow(c, s, u);
      TakeHome(PutBack(s), ps);
      TakeShadow(c, PutBack(s), if s.level <= c then PutBack(u) else u);
    } else if s.running == IDLE {
      TakeHome(s, ps);
      TakeShadow(c, s, u);
    }
  }

  lemma PutBackHome(s: State, ps: Table)
    requires s.running != IDLE && 0 <= s.level <= 2 && Home(s, ps)
    ensures Home(PutBack(s), ps)
  {
  }

  lemma PutBackShadow(c: int, s: State, u: State)
    requires s.running != IDLE && 0 <= s.level <= 2 && StateShadow(c, s, u)
    ensures StateShadow(c, PutBack(s), if s.level <= c then PutBack(u) else u)
  {
  }

  lemma TakeHome(s: State, ps: Table)
    requires s.running == IDLE && Home(s, ps)
    ensures Home(TakeHighest(s, LEVEL_QUANTUM).0, ps)
  {
  }

  lemma TakeShadow(c: int, s: State, u: State)
    requires s.running == IDLE && StateShadow(c, s, u) && NotQueued(s, IDLE)
    ensures var (s', next) := TakeHighest(s, LEVEL_QUANTUM); var (u', next') := TakeHighest(u, LEVEL_QUANTUM);
            StateShadow(c, s', u') && next' == (if next != IDLE && s'.level <= c then next else IDLE)
  {
  }

  /** Admission in the larger table, on the smaller table only of those who stay. */
  lemma {:induction false} AdmitShadow(c: int, s: State, u: State, ps: Table, tick: int, k: nat)
    requires MidRun(ps, tick) && k <= |ps| && Home(s, ps) && StateShadow(c, s, u)
    ensures var cut := QueueAtMost(c);
            var s', u' := Admit(MlqScheduler(), s, ps, tick, k),
                Admit(MlqScheduler(), u, KeepTo(ps, cut, k), tick, Rank(ps, cut, k));
            Home(s', ps) && StateShadow(c, s', u')
  {
    if k > 0 {
      AdmitShadow(c, s, u, ps, tick, k - 1);
      var cut, p := QueueAtMost(c), ps[k - 1];
      IndexOfOwn(ps, k - 1);
      if Stays(cut, p) { AdmitPrefix(u, KeepTo(ps, cut, k), KeepTo(ps, cut, k - 1), tick, Rank(ps, cut, k - 1)); }
      if p.arrival == tick {
        ArrivalShadow(c, Admit(MlqScheduler(), s, ps, tick, k - 1),
                      Admit(MlqScheduler(), u, KeepTo(ps, cut, k - 1), tick, Rank(ps, cut, k - 1)), ps, p);
      }
    }
  }

  lemma {:induction false} AdmitPrefix(u: State, a: Table, b: Table, tick: int, k: nat)
    requires k <= |a| && k <= |b| && a[..k] == b[..k]
    ensures Admit(MlqScheduler(), u, a, tick, k) == Admit(MlqScheduler(), u, b, tick, k)
  {
    if k > 0 {
      assert a[..k - 1] == a[..k][..k - 1] && b[..k - 1] == b[..k][..k - 1]
             && a[k - 1] == a[..k][k - 1] == b[..k][k - 1];
      AdmitPrefix(u, a, b, tick, k - 1);
    }
  }

  lemma ArrivalShadow(c: int, s: State, u: State, ps: Table, p: Process)
    requires Home(s, ps) && StateShadow(c, s, u) && 0 <= p.queue <= 2 && QueueOf(ps, p.pid) == p.queue
    ensures Home(OnArrival(s, p), ps)
    ensures StateShadow(c, OnArrival(s, p), if p.queue <= c then OnArrival(u, p) else u)
  {
  }

  ghost function MlqRel(c: int): (State, State, Table, int) -> bool {
    (s: State, u: State, ps, tick) => Inv(s, ps, tick) && Home(s, ps) && StateShadow(c, s, u)
  }

  /** Execution and the callbacks after it, on shadowed states. */
  lemma SettleShadow(c: int, s: State, u: State, ps: Table, tick: nat)
    requires MidRun(ps, tick) && s.running != IDLE && Runnable(ps, s.running, tick) && 0 <= s.level <= 2
    requires Home(s, ps) && StateShadow(c, s, u)
    ensures var cut := QueueAtMost(c); var next' := if s.level <= c then s.running else IDLE;
            && next' == Masked(ps, cut, s.running)
            && StateShadow(c, Settle(MlqScheduler(), s, ps, s.running, tick),
                           Settle(MlqScheduler(), u, Keep(ps, cut), next', tick))
  {
    var cut := QueueAtMost(c);
    KeepLookup(ps, cut, s.running);
    KeepExecute(ps, cut, s.running, tick);
    var finished := Finishes(ps, s.running);
    assert Settle(MlqScheduler(), s, ps, s.running, tick) == if finished then OnComplete(s)
           else OnTickEnd(s, s.running);
    if s.level <= c {
      assert Settle(MlqScheduler(), u, Keep(ps, cut), s.running, tick) == if finished then OnComplete(u)
             else OnTickEnd(u, s.running);
    }
    TickEndShadow(c, s, u);
  }

  lemma TickEndShadow(c: int, s: State, u: State)
    requires s.running != IDLE && 0 <= s.level <= 2 && StateShadow(c, s, u)
    ensures StateShadow(c, OnTickEnd(s, s.running), if s.level <= c then OnTickEnd(u, s.running) else u)
    ensures StateShadow(c, OnComplete(s), if s.level <= c then OnComplete(u) else u)
  {
  }

  lemma SettleHome(s: State, ps: Table, tick: nat)
    requires MidRun(ps, tick) && s.running != IDLE && Runnable(ps, s.running, tick) && 0 <= s.level <= 2 && Home(s, ps)
    ensures Home(Settle(MlqScheduler(), s, ps, s.running, tick), Execute(ps, s.running, tick))
  {
    var after := Execute(ps, s.running, tick);
    forall x ensures QueueOf(after, x) == QueueOf(ps, x) { SameIndex(ps, after, x); }
    var s' := if Finishes(ps, s.running) then OnComplete(s) else OnTickEnd(s, s.running);
    assert Settle(MlqScheduler(), s, ps, s.running, tick) == s';
    assert Home(s', ps);
  }

  lemma MlqTick(c: int, s: State, u: State, ps: Table, cur: int, cur': int, tick: nat)
    requires MidRun(ps, tick) && MlqRel(c)(s, u, ps, tick)
    ensures HiddenTick(MlqScheduler(), QueueAtMost(c), MlqRel(c), s, u, ps, cur, cur', tick)
  {
    AdmitShadow(c, s, u, ps, tick, |ps|);
    var a := AdmitKeeps(s, ps, tick);
    var small := Keep(ps, QueueAtMost(c));
    MlqPickAndSettle(c, a, Admit(MlqScheduler(), u, small, tick, |small|), ps, tick);
  }

  lemma MlqPickAndSettle(c: int, a: State, a': State, ps: Table, tick: nat)
    requires MidRun(ps, tick) && SliceOk(a, LEVEL_QUANTUM) && Lists(Held(a), ps, tick)
    requires Home(a, ps) && StateShadow(c, a, a')
    ensures var (b, next) := PickNext(a); var (b', next') := PickNext(a');
            var cut := QueueAtMost(c);
            && (next == IDLE || Runnable(ps, next, tick)) && next' == Masked(ps, cut, next)
            && (next' == IDLE || Runnable(Keep(ps, cut), next', tick))
            && MlqRel(c)(Settle(MlqScheduler(), b, ps, next, tick),
                Settle(MlqScheduler(), b', Keep(ps, cut), next', tick),
                         Execute(ps, next, tick), tick + 1)
  {
    PickKeeps(a, ps, tick);
    HeldOnce(a, ps, tick);
    PickShadow(c, a, a', ps);
    var (b, next) := PickNext(a);
    NobodyIsIdle(ps, tick);
    MaskedRunnable(ps, QueueAtMost(c), next, tick);
    if next != IDLE {
      SettleShadow(c, b, PickNext(a').0, ps, tick);
      SettleHome(b, ps, tick);
      SettleKeeps(b, ps, tick);
    }
  }

  /** Under MLQ, at every tick, the run of the processes in queues up to `c` is the same with
      and without the others. */
  lemma {:induction false} MlqHides(P: Table, c: int, t: nat)
    requires Fresh(P)
    ensures var cut := QueueAtMost(c);
            Shadows(P, cut, MlqRel(c), After(MlqScheduler(), P, t), After(MlqScheduler(), Keep(P, cut), t), t)
  {
    ListsAtStart(P);
    var s0: State := INIT;
    assert Held(s0) == [] && Inv(s0, P, 0) && Home(s0, P) && StateShadow(c, s0, s0);
    assert MlqRel(c)(s0, s0, P, 0);
    forall s, u, ps, cur, cur', tick: nat | MidRun(ps, tick) && MlqRel(c)(s, u, ps, tick)
      ensures HiddenTick(MlqScheduler(), QueueAtMost(c), MlqRel(c), s, u, ps, cur, cur', tick)
    {
      MlqTick(c, s, u, ps, cur, cur', tick);
    }
    InShadow(MlqScheduler(), P, QueueAtMost(c), MlqRel(c), t);
  }

  // ---------- Accepted runs ----------

  /** `u` is `s` with the deleted processes cut out and the idle tail dropped. */
  ghost predicate Survives<S>(P: Table, cut: Cut, s: Sim<S>, u: Sim<S>) {
    && u.procs == Keep(s.procs, cut)
    && |u.timeline| <= |s.timeline|
    && u.timeline == MaskedTimeline(P, cut, s.timeline)[..|u.timeline|]
    && forall t :: |u.timeline| <= t < |s.timeline| ==> MaskedTimeline(P, cut, s.timeline)[t] == IDLE
  }

  /** Once everything is done nothing more runs, and the table stays as it is. */
  lemma AfterTheEnd(P: Table, tl: seq<int>, t: nat)
    requires Fresh(P) && Legal(P, tl) && t <= |tl| && AllDone(P, tl, t)
    ensures forall i :: 0 <= i < |P| ==> Played(P[i], tl, |tl|) == Played(P[i], tl, t)
    ensures forall u :: t <= u < |tl| ==> tl[u] == IDLE
  {
    forall i, u: nat | 0 <= i < |P| && t <= u <= |tl|
      ensures Played(P[i], tl, u) == Played(P[i], tl, t)
    {
      forall v | t <= v <= u ensures Played(P[i], tl, v).remaining >= 0 { Books(P, tl, i, v); }
      DoneStays(P[i], tl, t, u);
    }
    forall u | t <= u < |tl| ensures tl[u] == IDLE {
      assert LegalTick(P, tl, u);
    }
  }

  /** A run kept in shadow to its end gives the smaller table's accepted run. */
  lemma ShadowsSurvive<S>(sc: Scheduler<S>, P: Table, cut: Cut, rel: (S, S, Table, int) -> bool)
    requires Fresh(P) && Run(sc, P).Some? && WorkConservingOn(sc, Keep(P, cut))
    requires var T := |Run(sc, P).value.timeline|;
             Shadows(P, cut, rel, After(sc, P, T), After(sc, Keep(P, cut), T), T)
    ensures Run(sc, Keep(P, cut)).Some? && Survives(P, cut, Run(sc, P).value, Run(sc, Keep(P, cut)).value)
  {
    var Q := Keep(P, cut);
    KeepFresh(P, cut);
    RunIffStops(sc, P);
    var s := Run(sc, P).value;
    var T := |s.timeline|;
    var y := After(sc, Q, T).value;
    Ledger(sc, Q, T);
    ShadowDone(sc, P, cut, s, y);
    RunningUntilMakespan(sc, Q, T);
    DoneIff(Q, y.timeline, T, y.procs);
    Outcome(sc, Q);
    var u := Run(sc, Q).value;
    RunIffStops(sc, Q);
    AcceptedRun(sc, Q);
    AfterPrefix(sc, Q, T, |u.timeline|);
    SameEnd(Q, u.timeline, y.timeline, u.procs, y.procs);
  }

  lemma SameEnd(Q: Table, a: seq<int>, b: seq<int>, ps: Table, qs: Table)
    requires Fresh(Q) && Legal(Q, b) && |a| <= |b| && a == b[..|a|] && AllDone(Q, a, |a|)
    requires PlayedTable(Q, a, |a|, ps) && PlayedTable(Q, b, |b|, qs)
    ensures ps == qs && forall t :: |a| <= t < |b| ==> b[t] == IDLE
  {
    forall i | 0 <= i < |Q| ensures Played(Q[i], a, |a|) == Played(Q[i], b, |a|) { PlayedPrefix(Q[i], a, b, |a|); }
    AfterTheEnd(Q, b, |a|);
  }

  /** When the larger run is finished, so is the smaller one. */
  lemma ShadowDone<S>(sc: Scheduler<S>, P: Table, cut: Cut, s: Sim<S>, y: Sim<S>)
    requires Fresh(P) && Run(sc, P) == Some(s) && y.procs == Keep(s.procs, cut)
    requires |y.timeline| == |s.timeline| && PlayedTable(Keep(P, cut), y.timeline, |y.timeline|, y.procs)
    ensures AllDone(Keep(P, cut), y.timeline, |y.timeline|)
  {
    AcceptedRun(sc, P);
    forall i | 0 <= i < |Keep(P, cut)|
      ensures Played(Keep(P, cut)[i], y.timeline, |y.timeline|).remaining == 0
    {
      var j := KeepIndex(s.procs, cut, |s.procs|, i);
      assert s.procs[j] == Played(P[j], s.timeline, |s.timeline|);
    }
  }

  /** Non-interference for preemptive priority: whenever the full table's run is accepted, so
      is that of the processes with priority number at most `c`, with the same start and
      completion of each and the same ticks. */
  lemma PriorityNonInterference(P: Table, c: int)
    requires Fresh(P) && Run(PriorityP(), P).Some?
    ensures var cut := PriorityAtMost(c);
            Run(PriorityP(), Keep(P, cut)).Some?
                && Survives(P, cut, Run(PriorityP(), P).value, Run(PriorityP(), Keep(P, cut)).value)
  {
    var cut := PriorityAtMost(c);
    KeepFresh(P, cut);
    PreemptiveConserves(ByPriority, Keep(P, cut));
    PriorityHides(P, c, |Run(PriorityP(), P).value.timeline|);
    ShadowsSurvive(PriorityP(), P, cut, PriorityRel(cut));
  }

  /** Non-interference for MLQ: the same for the processes in queues up to `c`. */
  lemma MlqNonInterference(P: Table, c: int)
    requires Fresh(P) && Run(MlqScheduler(), P).Some?
    ensures var cut := QueueAtMost(c);
            Run(MlqScheduler(), Keep(P, cut)).Some?
                && Survives(P, cut, Run(MlqScheduler(), P).value, Run(MlqScheduler(), Keep(P, cut)).value)
  {
    var cut := QueueAtMost(c);
    KeepFresh(P, cut);
    Conserves(Keep(P, cut));
    MlqHides(P, c, |Run(MlqScheduler(), P).value.timeline|);
    ShadowsSurvive(MlqScheduler(), P, cut, MlqRel(c));
  }
}
