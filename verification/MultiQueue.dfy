/** The three queues that `mlq.c` and `mlfq.c` keep in the same way.

    FIFO per level, with one saved slice per level for a preempted process put back at its
    head. As only one process runs at a time, no level ever holds two partly used slices. */
module MultiQueue {
  import opened Processes
  import opened Engine
  import opened ReadyLists

  const NLEVELS := 3

  /** One value per level; levels outside 0..2 read as the nearest end. */
  datatype Levels<T> = Levels(l0: T, l1: T, l2: T) {
    function At(lv: int): T {
      if lv <= 0 then l0 else if lv == 1 then l1 else l2
    }

    function With(lv: int, v: T): Levels<T> {
      if lv <= 0 then this.(l0 := v) else if lv == 1 then this.(l1 := v) else this.(l2 := v)
    }
  }

  /** `saved` is the slice left for the head of each queue, 0 when the head is fresh. */
  datatype Queues = Queues(q: Levels<seq<int>>, saved: Levels<int>)

  const EMPTY: Queues := Queues(Levels([], [], []), Levels(0, 0, 0))

  function PushTail(m: Queues, lv: int, pid: int): Queues {
    m.(q := m.q.With(lv, m.q.At(lv) + [pid]))
  }

  function PushHead(m: Queues, lv: int, pid: int, left: int): Queues {
    Queues(m.q.With(lv, [pid] + m.q.At(lv)), m.saved.With(lv, left))
  }

  /** The queues without the head of `lv`. */
  function Popped(m: Queues, lv: int): Queues {
    if m.q.At(lv) == [] then m else Queues(m.q.With(lv, m.q.At(lv)[1..]), m.saved.With(lv, 0))
  }

  function HeadPid(m: Queues, lv: int): int {
    if m.q.At(lv) == [] then IDLE else m.q.At(lv)[0]
  }

  /** The slice the head of `lv` starts with: what it had left, or a fresh quantum. */
  function HeadSlice(m: Queues, lv: int, quantum: Levels<int>): int {
    if m.saved.At(lv) > 0 then m.saved.At(lv) else quantum.At(lv)
  }

  /** The highest level with anything queued, or -1. */
  function Highest(m: Queues): (lv: int)
    ensures -1 <= lv <= 2
    ensures lv >= 0 ==> m.q.At(lv) != []
    ensures forall k :: 0 <= k <= 2 && (lv < 0 || k < lv) ==> m.q.At(k) == []
  {
    if m.q.l0 != [] then 0 else if m.q.l1 != [] then 1 else if m.q.l2 != [] then 2 else -1
  }

  /** Everybody queued, highest level first. */
  function All(m: Queues): seq<int> { m.q.l0 + m.q.l1 + m.q.l2 }

  lemma PushTailAll(m: Queues, lv: int, pid: int)
    ensures multiset(All(PushTail(m, lv, pid))) == multiset(All(m)) + multiset{pid}
    ensures multiset(All(PushTail(m, lv, pid))) == multiset([pid] + All(m))
  {
  }

  predicate SavedOk(m: Queues, quantum: Levels<int>, lv: int) {
    0 <= m.saved.At(lv) <= quantum.At(lv) && (m.saved.At(lv) > 0 ==> m.q.At(lv) != [])
  }

  lemma PushTailSaved(m: Queues, quantum: Levels<int>, lv: int, pid: int)
    requires SavedOk(m, quantum, 0) && SavedOk(m, quantum, 1) && SavedOk(m, quantum, 2)
    ensures var m' := PushTail(m, lv, pid);
            SavedOk(m', quantum, 0) && SavedOk(m', quantum, 1) && SavedOk(m', quantum, 2)
  {
  }

  lemma AllCounts(m: Queues)
    ensures multiset(All(m)) == multiset(m.q.l0) + multiset(m.q.l1) + multiset(m.q.l2)
  {
  }

  lemma PushHeadAll(m: Queues, lv: int, pid: int, left: int)
    ensures multiset(All(PushHead(m, lv, pid, left))) == multiset(All(m)) + multiset{pid}
    ensures multiset(All(PushHead(m, lv, pid, left))) == multiset([pid] + All(m))
  {
    var q, r := m.q, PushHead(m, lv, pid, left).q;
    AllCounts(m);
    AllCounts(PushHead(m, lv, pid, left));
    assert multiset([pid] + q.At(lv)) == multiset{pid} + multiset(q.At(lv));
    assert multiset([pid] + All(m)) == multiset{pid} + multiset(All(m));
    assert forall k :: 0 <= k <= 2 ==>
        r.At(k) == if k == (if lv <= 0 then 0 else if lv == 1 then 1 else 2) then [pid] + q.At(lv) else q.At(k);
    assert r.l0 == r.At(0) && r.l1 == r.At(1) && r.l2 == r.At(2);
  }

  lemma PoppedAll(m: Queues, lv: int)
    requires m.q.At(lv) != []
    ensures multiset([HeadPid(m, lv)] + All(Popped(m, lv))) == multiset(All(m))
  {
    assert m.q.At(lv) == [m.q.At(lv)[0]] + m.q.At(lv)[1..];
  }

  datatype State = State(m: Queues, running: int, level: int, left: int)

  const INIT: State := State(EMPTY, IDLE, -1, 0)

  function OnComplete(s: State): State { State(s.m, IDLE, -1, 0) }

  /** Preempted: back to the head of its own level, keeping what is left of its slice. */
  function PutBack(s: State): State {
    s.(m := PushHead(s.m, s.level, s.running, s.left), running := IDLE)
  }

  /** Dispatch the head of the highest level that has one. */
  function TakeHighest(s: State, quantum: Levels<int>): (State, int) {
    var top := Highest(s.m);
    if top < 0 then (s.(running := IDLE, level := -1), IDLE)
    else (State(Popped(s.m, top), HeadPid(s.m, top), top, HeadSlice(s.m, top, quantum)), HeadPid(s.m, top))
  }

  /** Everybody the scheduler holds, the running one first. */
  function Held(s: State): seq<int> { OnCpu(s.running) + All(s.m) }

  /** A level's line: the process running from it, and then its queue. */
  function Line(s: State, lv: int): seq<int> {
    (if s.running != IDLE && s.level == lv then [s.running] else []) + s.m.q.At(lv)
  }

  lemma HeldPushTail(s: State, lv: int, pid: int)
    ensures multiset(Held(s.(m := PushTail(s.m, lv, pid)))) == multiset(Held(s) + [pid])
  {
    PushTailAll(s.m, lv, pid);
  }

  /** Slices are sound: only the running process and the heads of queues can be part way
      through one, never both at the same level, and never beyond the level's quantum. */
  ghost predicate SliceOk(s: State, quantum: Levels<int>) {
    && (s.running != IDLE ==>
          && 0 <= s.level <= 2 && s.m.saved.At(s.level) == 0
          && (if quantum.At(s.level) == 0 then s.left == 0 else 1 <= s.left <= quantum.At(s.level)))
    && SavedOk(s.m, quantum, 0) && SavedOk(s.m, quantum, 1) && SavedOk(s.m, quantum, 2)
  }

  /** Nobody queued is at a higher level than whoever runs. */
  predicate TopRuns(s: State) {
    s.running != IDLE ==> 0 <= s.level <= 2 && (Highest(s.m) < 0 || s.level <= Highest(s.m))
  }

  lemma PutBackKeeps(s: State, quantum: Levels<int>)
    requires s.running != IDLE && SliceOk(s, quantum)
    ensures SliceOk(PutBack(s), quantum)
    ensures multiset(Held(PutBack(s))) == multiset(Held(s))
  {
    PushHeadAll(s.m, s.level, s.running, s.left);
    assert Held(PutBack(s)) == All(PutBack(s).m);
  }

  /** What every pick leaves behind. */
  ghost predicate PickedWell(s: State, next: int, quantum: Levels<int>, ps: Table, tick: nat) {
    && s.running == next && SliceOk(s, quantum) && TopRuns(s) && Lists(Held(s), ps, tick)
    && (next == IDLE ==> forall i :: 0 <= i < |ps| ==> !Active(ps[i], tick))
    && (next != IDLE ==> Runnable(ps, next, tick))
  }

  lemma TakeKeeps(s: State, quantum: Levels<int>, ps: Table, tick: nat)
    requires MidRun(ps, tick) && s.running == IDLE && SliceOk(s, quantum) && Lists(Held(s), ps, tick)
    requires 0 <= quantum.l0 && 0 <= quantum.l1 && 0 <= quantum.l2
    ensures var (s', next) := TakeHighest(s, quantum); PickedWell(s', next, quantum, ps, tick)
  {
    assert Held(s) == All(s.m);
    if Highest(s.m) < 0 {
      ListsNobody(ps, tick);
    } else {
      QueuedAreRunnable(s, ps, tick, Highest(s.m));
      TakenSlices(s, quantum);
    }
  }

  lemma PreemptKeeps(s: State, quantum: Levels<int>, ps: Table, tick: nat)
    requires MidRun(ps, tick) && s.running != IDLE && SliceOk(s, quantum) && Lists(Held(s), ps, tick)
    requires 0 <= quantum.l0 && 0 <= quantum.l1 && 0 <= quantum.l2
    ensures var (s', next) := TakeHighest(PutBack(s), quantum); PickedWell(s', next, quantum, ps, tick)
  {
    PutBackKeeps(s, quantum);
    TakeKeeps(PutBack(s), quantum, ps, tick);
  }

  lemma TakenSlices(s: State, quantum: Levels<int>)
    requires s.running == IDLE && SliceOk(s, quantum) && Highest(s.m) >= 0 && HeadPid(s.m, Highest(s.m)) != IDLE
    requires 0 <= quantum.l0 && 0 <= quantum.l1 && 0 <= quantum.l2
    ensures var (s', next) := TakeHighest(s, quantum);
            SliceOk(s', quantum) && TopRuns(s') && multiset(Held(s')) == multiset(All(s.m))
  {
    var (s', next) := TakeHighest(s, quantum);
    PoppedAll(s.m, Highest(s.m));
    assert Held(s') == [next] + All(s'.m);
  }

  lemma QueuedAreRunnable(s: State, ps: Table, tick: nat, lv: int)
    requires MidRun(ps, tick) && Lists(Held(s), ps, tick) && s.m.q.At(lv) != []
    ensures HeadPid(s.m, lv) >= 1 && Runnable(ps, HeadPid(s.m, lv), tick)
  {
    assert HeadPid(s.m, lv) in s.m.q.At(lv);
    assert HeadPid(s.m, lv) in Held(s);
    ListsIff(Held(s), ps, tick, HeadPid(s.m, lv));
  }

  lemma KeepsRunning(s: State, quantum: Levels<int>, ps: Table, tick: nat)
    requires MidRun(ps, tick) && s.running != IDLE && SliceOk(s, quantum) && Lists(Held(s), ps, tick)
    requires !(0 <= Highest(s.m) < s.level)
    ensures PickedWell(s, s.running, quantum, ps, tick)
  {
    ListsHead(Held(s), ps, tick);
  }

  predicate NotQueued(s: State, x: int) {
    x !in s.m.q.l0 && x !in s.m.q.l1 && x !in s.m.q.l2
  }

  /** Held pids are real ones, and each is held in one place. */
  lemma HeldOnce(b: State, ps: Table, t: nat)
    requires MidRun(ps, t) && Lists(Held(b), ps, t)
    ensures NotQueued(b, IDLE)
    ensures b.running != IDLE ==> NotQueued(b, b.running)
  {
    ListsIff(Held(b), ps, t, IDLE);
    assert IDLE !in Held(b);
    if b.running != IDLE {
      ListsIff(Held(b), ps, t, b.running);
      assert Held(b) == [b.running] + All(b.m);
      assert multiset(Held(b))[b.running] == 1 + multiset(All(b.m))[b.running];
      assert b.running !in All(b.m);
    }
  }

  /** Nobody is queued on two levels, or queued and running. */
  lemma OnePlace(a: State, ps: Table, t: nat, x: int, j: int, k: int)
    requires MidRun(ps, t) && Lists(Held(a), ps, t) && 0 <= j <= 2 && 0 <= k <= 2
    requires x in a.m.q.At(j) && x in a.m.q.At(k)
    ensures j == k && a.running != x
  {
    HeldOnce(a, ps, t);
    ListsIff(Held(a), ps, t, x);
    var q := a.m.q;
    assert multiset(Held(a))[x]
        == multiset(OnCpu(a.running))[x] + multiset(q.l0)[x] + multiset(q.l1)[x] + multiset(q.l2)[x];
  }
}
