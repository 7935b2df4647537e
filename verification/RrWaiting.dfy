/** Round Robin's waiting bound: one turn of the others for each slice of one's own. */
module RrWaiting {
  import opened Processes
  import opened Engine
  import opened Timelines
  import opened ReadyLists
  import opened LittlesLaw
  import opened RoundRobin

  /** `k` times `a`. */
  function Times(a: int, k: nat): (r: int)
    ensures a >= 0 ==> r >= 0
  {
    if k == 0 then 0 else Times(a, k - 1) + a
  }

  lemma {:induction false} TimesIs(a: int, k: nat)
    ensures Times(a, k) == a * k
  {
    if k > 0 { TimesIs(a, k - 1); }
  }

  lemma {:induction false} TimesMonotone(a: nat, j: nat, k: nat)
    requires j <= k
    ensures Times(a, j) <= Times(a, k)
  {
    if j < k { TimesMonotone(a, j, k - 1); }
  }

  /** The ticks of a slice: the configured quantum, or 4 when that is not positive. */
  function Quantum(q: int): (r: nat)
    ensures r > 0
  {
    if q > 0 then q else 4
  }

  /** What the running slice still needs. */
  function Slice(s: State): nat {
    if s.running != IDLE && s.left > 0 then s.left else 0
  }

  /** The longest a process waits for one dispatch: everybody else's slice. */
  function Turn(q: nat, n: nat): nat
    requires n > 0
  {
    Times(q, n - 1)
  }

  ghost predicate QueuedAt(s: State, x: int, waited: int, n: nat, k: nat, p: nat)
    requires n > 0 && s.quantum > 0 && p < |s.queue|
  {
    s.queue[p] == x && waited + Slice(s) + Times(s.quantum, p) <= Times(Turn(s.quantum, n), k + 1)
  }

  /** Pid `x` has had `done` ticks and waited `waited`, and is on its `k`-th slice: running
      inside it, or queued with at most one turn of waiting ahead per slice so far. */
  ghost predicate OnSlice(s: State, x: int, done: int, waited: int, n: nat, k: nat)
    requires n > 0 && s.quantum > 0
  {
    || (s.running == x && 1 <= s.left <= s.quantum && done == Times(s.quantum, k) + s.quantum - s.left
        && waited <= Times(Turn(s.quantum, n), k + 1))
    || (done == Times(s.quantum, k) && exists p :: 0 <= p < |s.queue| && QueuedAt(s, x, waited, n, k, p))
  }

  /** A place in the queue is at most one turn from the CPU. */
  lemma PlaceWithinTurn(s: State, ps: Table, t: nat, p: nat)
    requires MidRun(ps, t) && Lists(OnCpu(s.running) + s.queue, ps, t) && p < |s.queue| && s.quantum > 0
    requires s.running != IDLE ==> s.left <= s.quantum
    ensures |ps| > 0 && Slice(s) + Times(s.quantum, p) <= Turn(s.quantum, |ps|)
  {
    ListsLength(OnCpu(s.running) + s.queue, ps, t);
    var ahead := if s.running == IDLE then p else p + 1;
    assert ahead <= |ps| - 1;
    TimesMonotone(s.quantum, ahead, |ps| - 1);
  }

  /** The picked state: `x` runs or is queued, after a pick. */
  lemma PickSlice(a: State, x: int, done: int, waited: int, n: nat, k: nat)
    requires n > 0 && a.quantum > 0 && x != IDLE && OnSlice(a, x, done, waited, n, k) && IDLE !in a.queue
    requires a.running != IDLE ==> 1 <= a.left <= a.quantum
    ensures var b := PickNext(a).0;
            && b.quantum == a.quantum && b.running != IDLE && 1 <= b.left <= b.quantum
            && OnSlice(b, x, done, waited, n, k)
  {
    var b := PickNext(a).0;
    if a.running == IDLE {
      var p :| 0 <= p < |a.queue| && QueuedAt(a, x, waited, n, k, p);
      if p > 0 { assert b.queue[p - 1] == x && QueuedAt(b, x, waited, n, k, p - 1); }
    } else if p :| 0 <= p < |a.queue| && QueuedAt(a, x, waited, n, k, p) {
      assert QueuedAt(b, x, waited, n, k, p);
    }
  }

  /** Waiting while somebody else runs: one more tick waited, one fewer to wait. */
  lemma WaitSlice(b: State, ps: Table, x: int, done: int, waited: int, n: nat, k: nat)
    requires n > 0 && b.quantum > 0 && b.running != IDLE && 1 <= b.left <= b.quantum && x != b.running
    requires OnSlice(b, x, done, waited, n, k)
    ensures OnSlice(Settled(b, ps), x, done, waited + 1, n, k)
  {
    var s := Settled(b, ps);
    var p :| 0 <= p < |b.queue| && QueuedAt(b, x, waited, n, k, p);
    assert s.queue[p] == x && QueuedAt(s, x, waited + 1, n, k, p);
  }

  /** Running without finishing: further into the slice, or to the tail on the next one. */
  lemma RunSlice(b: State, ps: Table, t: nat, x: int, done: int, waited: int, n: nat, k: nat)
    requires n > 0 && b.quantum > 0 && b.running == x != IDLE && 1 <= b.left <= b.quantum && x !in b.queue
    requires OnSlice(b, x, done, waited, n, k) && !Finishes(ps, x)
    requires Times(b.quantum, |b.queue|) <= Turn(b.quantum, n)
    ensures OnSlice(Settled(b, ps), x, done + 1, waited, n, if b.left == 1 then k + 1 else k)
  {
    var s := Settled(b, ps);
    if b.left == 1 { assert s.queue[|b.queue|] == x && QueuedAt(s, x, waited, n, k + 1, |b.queue|); }
  }

  lemma QueuedApart(s: State, ps: Table, t: nat)
    requires MidRun(ps, t) && Lists(OnCpu(s.running) + s.queue, ps, t)
    ensures IDLE !in s.queue && s.running !in s.queue
  {
    var l := OnCpu(s.running) + s.queue;
    ListsIff(l, ps, t, IDLE);
    assert IDLE !in l;
    if s.running != IDLE {
      ListsIff(l, ps, t, s.running);
      assert multiset(l)[s.running] == 1 + multiset(s.queue)[s.running];
    }
  }

  /** One tick of process `i`, on whatever slice it is. */
  lemma TickSlice(a: State, b: State, ps: Table, t: nat, i: nat, done: int, waited: int, k: nat) returns (k': nat)
    requires MidRun(ps, t) && i < |ps| && a.quantum > 0 && b == PickNext(a).0
    requires Lists(OnCpu(a.running) + a.queue, ps, t) && (a.running != IDLE ==> 1 <= a.left <= a.quantum)
    requires OnSlice(a, ps[i].pid, done, waited, |ps|, k)
    ensures b.running != ps[i].pid ==> k' == k && OnSlice(Settled(b, ps), ps[i].pid, done, waited + 1, |ps|, k')
    ensures b.running == ps[i].pid && !Finishes(ps, b.running) ==>
              OnSlice(Settled(b, ps), ps[i].pid, done + 1, waited, |ps|, k')
    ensures b.running == ps[i].pid ==>
              done >= Times(a.quantum, k) && waited <= Times(Turn(a.quantum, |ps|), k + 1)
  {
    k' := k;
    var x := ps[i].pid;
    QueuedApart(a, ps, t);
    PickSlice(a, x, done, waited, |ps|, k);
    if b.running != x {
      WaitSlice(b, ps, x, done, waited, |ps|, k);
    } else {
      PickKeeps(a, ps, t);
      QueuedApart(b, ps, t);
      RunningSlice(b, x, done, waited, |ps|, k);
      if !Finishes(ps, x) {
        QueueWithinTurn(b, ps, t);
        RunSlice(b, ps, t, x, done, waited, |ps|, k);
        k' := if b.left == 1 then k + 1 else k;
      }
    }
  }

  lemma RunningSlice(b: State, x: int, done: int, waited: int, n: nat, k: nat)
    requires n > 0 && b.quantum > 0 && b.running == x && x !in b.queue && OnSlice(b, x, done, waited, n, k)
    ensures done >= Times(b.quantum, k) && waited <= Times(Turn(b.quantum, n), k + 1)
  {
  }

  lemma QueueWithinTurn(b: State, ps: Table, t: nat)
    requires MidRun(ps, t) && Lists(OnCpu(b.running) + b.queue, ps, t) && b.running != IDLE && b.quantum > 0
    ensures |ps| > 0 && Times(b.quantum, |b.queue|) <= Turn(b.quantum, |ps|)
  {
    ListsLength(OnCpu(b.running) + b.queue, ps, t);
    TimesMonotone(b.quantum, |b.queue|, |ps| - 1);
  }

  /** Admission appends to the queue and delays nobody. */
  lemma AdmitSlice(s: State, ps: Table, t: int, x: int, done: int, waited: int, n: nat, k: nat)
    requires n > 0 && s.quantum > 0 && OnSlice(s, x, done, waited, n, k)
    ensures OnSlice(Admitted(s, ps, t), x, done, waited, n, k)
  {
    if p :| 0 <= p < |s.queue| && QueuedAt(s, x, waited, n, k, p) {
      assert QueuedAt(Admitted(s, ps, t), x, waited, n, k, p);
    }
  }

  /** An arrival starts its first wait within a turn of the CPU. */
  lemma ArrivalSlice(s: State, ps: Table, t: nat, i: nat)
    requires MidRun(ps, t) && i < |ps| && ps[i].arrival == t && s.quantum > 0
    requires var a := Admitted(s, ps, t);
             Lists(OnCpu(a.running) + a.queue, ps, t) && (a.running != IDLE ==> a.left <= a.quantum)
    requires s.running != ps[i].pid
    ensures OnSlice(Admitted(s, ps, t), ps[i].pid, 0, 0, |ps|, 0)
  {
    var a, x := Admitted(s, ps, t), ps[i].pid;
    IndexOfOwn(ps, i);
    ListsIff(OnCpu(a.running) + a.queue, ps, t, x);
    assert x in a.queue;
    var p :| 0 <= p < |a.queue| && a.queue[p] == x;
    PlaceWithinTurn(a, ps, t, p);
    assert Times(Turn(a.quantum, |ps|), 1) == Turn(a.quantum, |ps|);
    assert QueuedAt(a, x, 0, |ps|, 0, p);
  }

  /** `OnSlice` for process `i`, as tick `t` has admitted its arrivals. */
  ghost predicate SliceOn(s: Sim<State>, q: int, i: nat, t: nat, k: nat) {
    && i < |s.procs| && s.st.quantum == Quantum(q)
    && var p := s.procs[i];
       OnSlice(Admitted(s.st, s.procs, t), p.pid, p.burst - p.remaining,
               t - p.arrival - (p.burst - p.remaining), |s.procs|, k)
  }

  /** From one tick to the next, while the process is unfinished. */
  lemma NextSlice(ps: Table, a: State, b: State, s': State, ps': Table, t: nat, i: nat, done: int, waited: int,
      k: nat) returns (k': nat)
    requires MidRun(ps, t) && i < |ps| == |ps'| && a.quantum > 0 && b == PickNext(a).0
    requires Lists(OnCpu(a.running) + a.queue, ps, t) && (a.running != IDLE ==> 1 <= a.left <= a.quantum)
    requires OnSlice(a, ps[i].pid, done, waited, |ps|, k)
    requires s' == Settled(b, ps) && !(b.running == ps[i].pid && Finishes(ps, b.running))
    ensures s'.quantum == a.quantum
    ensures var ran := b.running == ps[i].pid;
            OnSlice(Admitted(s', ps', t + 1), ps[i].pid, done + (if ran then 1 else 0),
                waited + (if ran then 0 else 1), |ps|, k')
  {
    k' := TickSlice(a, b, ps, t, i, done, waited, k);
    var ran := b.running == ps[i].pid;
    AdmitSlice(s', ps', t + 1, ps[i].pid, done + (if ran then 1 else 0), waited + (if ran then 0 else 1), |ps|, k');
  }

  lemma SliceStep(q: int, i: nat, t: nat, s: Sim<State>, a: State, b: State, s': Sim<State>, k: nat) returns (k': nat)
    requires MidRun(s.procs, t) && SliceOn(s, q, i, t, k) && a == Admitted(s.st, s.procs, t) && b == PickNext(a).0
    requires Lists(OnCpu(a.running) + a.queue, s.procs, t) && (a.running != IDLE ==> 1 <= a.left <= a.quantum)
    requires b.running == IDLE || Runnable(s.procs, b.running, t)
    requires s'.procs == Execute(s.procs, b.running, t) && s'.st == Settled(b, s.procs) && s'.procs[i].remaining > 0
    ensures SliceOn(s', q, i, t + 1, k')
  {
    ExecuteOne(s.procs, b.running, t, i);
    var p := s.procs[i];
    k' := NextSlice(s.procs, a, b, s'.st, s'.procs, t, i, p.burst - p.remaining,
        t - p.arrival - (p.burst - p.remaining), k);
  }

  lemma SliceStart(q: int, i: nat, t: nat, s: Sim<State>)
    requires MidRun(s.procs, t) && Inv(s.st, s.procs, t) && i < |s.procs| && s.procs[i].arrival == t
    requires s.st.quantum == Quantum(q)
    requires var a := Admitted(s.st, s.procs, t); Lists(OnCpu(a.running) + a.queue, s.procs, t)
    ensures SliceOn(s, q, i, t, 0)
  {
    NotRunningYet(s.st, s.procs, t, i);
    ArrivalSlice(s.st, s.procs, t, i);
  }

  lemma NotRunningYet(s: State, ps: Table, t: nat, i: nat)
    requires MidRun(ps, t) && i < |ps| && ps[i].arrival == t && Inv(s, ps, t)
    ensures s.running != ps[i].pid
  {
    IndexOfOwn(ps, i);
    ListsIff(OnCpu(s.running) + s.queue, ps, t - 1, ps[i].pid);
  }

  lemma QuantumStays(s: State, ps: Table, t: int)
    ensures Settled(PickNext(Admitted(s, ps, t)).0, ps).quantum == s.quantum
  {
  }

  lemma {:induction false} QuantumIs(q: int, P: Table, t: nat)
    requires Fresh(P)
    ensures After(Rr(q), P, t).Some? && After(Rr(q), P, t).value.st.quantum == Quantum(q)
  {
    if t > 0 {
      QuantumIs(q, P, t - 1);
      var s, a, b, s' := OneTick(q, P, t - 1);
      QuantumStays(s.st, s.procs, t - 1);
    }
  }

  /** Every unfinished process is on its slices from arrival on. */
  lemma {:induction false} OnSlices(q: int, P: Table, i: nat, t: nat, s: Sim<State>) returns (k: nat)
    requires Fresh(P) && i < |P| && P[i].arrival <= t && After(Rr(q), P, t) == Some(s) && s.procs[i].remaining > 0
    ensures SliceOn(s, q, i, t, k)
  {
    if t == P[i].arrival {
      k := OnFirstSlice(q, P, i, t, s);
    } else {
      var r := StillUnfinished(q, P, i, t - 1, s);
      var j := OnSlices(q, P, i, t - 1, r);
      k := OnNextSlice(q, P, i, t - 1, r, s, j);
    }
  }

  lemma OnFirstSlice(q: int, P: Table, i: nat, t: nat, s: Sim<State>) returns (k: nat)
    requires Fresh(P) && i < |P| && P[i].arrival == t && After(Rr(q), P, t) == Some(s)
    ensures SliceOn(s, q, i, t, k)
  {
    var r, a, b, s' := OneTick(q, P, t);
    PlayedSame(P, s.timeline, t, s.procs);
    QuantumIs(q, P, t);
    SliceStart(q, i, t, s);
    k := 0;
  }

  lemma OnNextSlice(q: int, P: Table, i: nat, t: nat, r: Sim<State>, s: Sim<State>, j: nat) returns (k: nat)
    requires Fresh(P) && i < |P| && After(Rr(q), P, t) == Some(r) && After(Rr(q), P, t + 1) == Some(s)
    requires SliceOn(r, q, i, t, j) && s.procs[i].remaining > 0
    ensures SliceOn(s, q, i, t + 1, k)
  {
    var r1, a, b, s1 := OneTick(q, P, t);
    k := SliceStep(q, i, t, r, a, b, s, j);
  }

  lemma StillUnfinished(q: int, P: Table, i: nat, t: nat, s: Sim<State>) returns (r: Sim<State>)
    requires Fresh(P) && i < |P| && After(Rr(q), P, t + 1) == Some(s) && s.procs[i].remaining > 0
    ensures After(Rr(q), P, t) == Some(r) && r.procs[i].remaining > 0
  {
    var r0, a, b, s' := OneTick(q, P, t);
    ExecuteOne(r0.procs, b.running, t, i);
    r := r0;
  }

  /** The number of slices of `q` that a burst takes: its quotient by `q`, rounded up. */
  function Slices(burst: int, q: nat): (c: nat)
    requires q > 0
    ensures c >= 1
    decreases burst
  {
    if burst <= q then 1 else 1 + Slices(burst - q, q)
  }

  /** Everybody else's quantum, for each of the slices that a burst takes. */
  function WaitLimit(q: nat, n: nat, burst: int): int
    requires q > 0
  {
    q * (n - 1) * Slices(burst, q)
  }

  /** On the tick that finishes process `i`, its waiting is within the bound. */
  lemma FinishBound(q: int, P: Table, i: nat, t: nat, s: Sim<State>, s': Sim<State>)
    requires Fresh(P) && i < |P| && P[i].arrival <= t && After(Rr(q), P, t) == Some(s)
             && After(Rr(q), P, t + 1) == Some(s')
    requires s.procs[i].remaining == 1 && s'.procs[i].remaining == 0
    ensures t + 1 - P[i].arrival - P[i].burst <= WaitLimit(Quantum(q), |P|, P[i].burst)
  {
    var k := OnSlices(q, P, i, t, s);
    var r, a, b, r' := OneTick(q, P, t);
    PlayedSame(P, s.timeline, t, s.procs);
    FinishTickBound(q, i, t, s, a, b, k);
  }

  lemma FinishTickBound(q: int, i: nat, t: nat, s: Sim<State>, a: State, b: State, k: nat)
    requires MidRun(s.procs, t) && SliceOn(s, q, i, t, k) && a == Admitted(s.st, s.procs, t) && b == PickNext(a).0
    requires Lists(OnCpu(a.running) + a.queue, s.procs, t) && (a.running != IDLE ==> 1 <= a.left <= a.quantum)
    requires b.running == IDLE || Runnable(s.procs, b.running, t)
    requires s.procs[i].remaining == 1 && Execute(s.procs, b.running, t)[i].remaining == 0
    ensures var p := s.procs[i];
            t + 1 - p.arrival - p.burst <= WaitLimit(Quantum(q), |s.procs|, p.burst)
  {
    ExecuteOne(s.procs, b.running, t, i);
    var p := s.procs[i];
    var k' := TickSlice(a, b, s.procs, t, i, p.burst - 1, t - p.arrival - (p.burst - 1), k);
    SlicesSuffice(Quantum(q), p.burst, |s.procs|, k);
  }

  lemma SlicesSuffice(q: nat, burst: nat, n: nat, k: nat)
    requires q > 0 && n > 0 && burst > 0 && burst - 1 >= Times(q, k)
    ensures Times(Turn(q, n), k + 1) <= WaitLimit(q, n, burst)
  {
    TimesIs(q, n - 1);
    var c := Slices(burst, q);
    SlicesAtLeast(burst, q, k);
    TimesMonotone(Turn(q, n), k + 1, c);
    TimesIs(Turn(q, n), c);
  }

  lemma {:induction false} SlicesAtLeast(burst: nat, q: nat, k: nat)
    requires q > 0 && burst - 1 >= Times(q, k)
    ensures Slices(burst, q) >= k + 1
  {
    if k > 0 { SlicesAtLeast(burst - q, q, k - 1); }
  }

  /** The waiting bound: in an accepted run nobody waits longer than everybody else's quantum
      for each of its own slices. The quantum is `q`, or 4 when that is not positive. */
  lemma WaitingBound(q: int, P: Table, i: nat)
    requires Fresh(P) && i < |P| && Run(Rr(q), P).Some?
    ensures var waiting := Waiting(Run(Rr(q), P).value.procs[i]);
            && (q > 0 ==> waiting <= q * (|P| - 1) * Slices(P[i].burst, q))
            && (q <= 0 ==> waiting <= 4 * (|P| - 1) * Slices(P[i].burst, 4))
  {
    AcceptedRun(Rr(q), P);
    RunIffStops(Rr(q), P);
    var s := Run(Rr(q), P).value;
    var T := |s.timeline|;
    Books(P, s.timeline, i, T);
    var f := s.procs[i].completion - 1;
    FinishTick(Rr(q), P, i, f);
    FinishBound(q, P, i, f, After(Rr(q), P, f).value, After(Rr(q), P, f + 1).value);
    PlayedSame(P, s.timeline, T, s.procs);
  }

  /** The tick before a process's completion is the one on which it finishes. */
  lemma FinishTick<S>(sc: Scheduler<S>, P: Table, i: nat, f: int)
    requires Fresh(P) && i < |P| && Run(sc, P).Some? && f == Run(sc, P).value.procs[i].completion - 1
    ensures f >= P[i].arrival && After(sc, P, f).Some? && After(sc, P, f + 1).Some?
    ensures After(sc, P, f).value.procs[i].remaining == 1 && After(sc, P, f + 1).value.procs[i].remaining == 0
  {
    AcceptedRun(sc, P);
    var tl := Run(sc, P).value.timeline;
    Books(P, tl, i, |tl|);
    Books(P, tl, i, f);
    Books(P, tl, i, f + 1);
    DuringRun(sc, P, i, f);
    DuringRun(sc, P, i, f + 1);
  }

  /** An accepted run seen at one of its ticks. */
  lemma DuringRun<S>(sc: Scheduler<S>, P: Table, i: nat, t: nat)
    requires Fresh(P) && i < |P| && Run(sc, P).Some? && t <= |Run(sc, P).value.timeline|
    ensures After(sc, P, t).Some? && After(sc, P, t).value.procs[i] == Played(P[i], Run(sc, P).value.timeline, t)
  {
    RunIffStops(sc, P);
    var tl := Run(sc, P).value.timeline;
    AfterPrefix(sc, P, |tl|, t);
    Ledger(sc, P, t);
    PlayedPrefix(P[i], After(sc, P, t).value.timeline, tl, t);
  }
}
