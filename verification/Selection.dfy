/** The selection scan that SJF, SRTF, both priority schedulers and CFS share.

    The least key among the active processes wins, the first in the table among equals. */
module Selection {
  import opened Processes
  import opened Engine
  import opened Timelines
  import opened WorkConservation

  datatype Key = ByBurst | ByRemaining | ByPriority | ByVruntime(vruntime: seq<int>)

  /** The virtual runtime recorded for a pid; 0 outside the array. */
  function Vruntime(vr: seq<int>, pid: int): int {
    if 0 <= pid < |vr| then vr[pid] else 0
  }

  function KeyOf(key: Key, p: Process): int {
    match key
    case ByBurst => p.burst
    case ByRemaining => p.remaining
    case ByPriority => p.priority
    case ByVruntime(vr) => Vruntime(vr, p.pid)
  }

  /** The scan over the first `k` processes: an index, or -1 when none is active. */
  function Best(ps: Table, tick: int, key: Key, k: nat): (b: int)
    requires k <= |ps|
    ensures -1 <= b < k
    ensures b == -1 <==> forall i :: 0 <= i < k ==> !Active(ps[i], tick)
    ensures b >= 0 ==>
              && Active(ps[b], tick)
              && (forall i :: 0 <= i < k && Active(ps[i], tick) ==> KeyOf(key, ps[b]) <= KeyOf(key, ps[i]))
              && (forall i :: 0 <= i < b && Active(ps[i], tick) ==> KeyOf(key, ps[b]) < KeyOf(key, ps[i]))
  {
    if k == 0 then -1
    else
      var b := Best(ps, tick, key, k - 1);
      if Active(ps[k - 1], tick) && (b < 0 || KeyOf(key, ps[k - 1]) < KeyOf(key, ps[b])) then k - 1 else b
  }

  /** The first least active process is the only one: two scans that agree on that agree. */
  lemma BestUnique(ps: Table, tick: int, key: Key, b: nat)
    requires b < |ps| && Active(ps[b], tick)
    requires forall i :: 0 <= i < |ps| && Active(ps[i], tick) ==> KeyOf(key, ps[b]) <= KeyOf(key, ps[i])
    requires forall i :: 0 <= i < b && Active(ps[i], tick) ==> KeyOf(key, ps[b]) < KeyOf(key, ps[i])
    ensures Best(ps, tick, key, |ps|) == b
  {
    var c := Best(ps, tick, key, |ps|);
    assert c >= 0;
    assert KeyOf(key, ps[b]) == KeyOf(key, ps[c]);
  }

  /** The slot of the process that ran last, or -1 for none. */
  function Incumbent(ps: Table, running: int): (k: int)
    ensures -1 <= k < |ps|
  {
    if running == IDLE then -1 else IndexOf(ps, running)
  }

  /** Did the process that ran last arrive by `tick`? It always has, in a run. */
  predicate IncumbentArrived(ps: Table, tick: int, running: int) {
    var inc := Incumbent(ps, running);
    inc >= 0 ==> ps[inc].arrival <= tick
  }

  /** The scan's winner, unless it merely ties an unfinished incumbent. Nobody active is
      strictly better, and an unfinished incumbent loses only to somebody strictly better. */
  function Contend(ps: Table, tick: int, key: Key, running: int): (b: int)
    ensures -1 <= b < |ps|
    ensures b == -1 <==> forall i :: 0 <= i < |ps| ==> !Active(ps[i], tick)
    ensures b >= 0 && IncumbentArrived(ps, tick, running) ==> Active(ps[b], tick)
    ensures b >= 0 ==> forall i :: 0 <= i < |ps| && Active(ps[i], tick) ==> KeyOf(key, ps[b]) <= KeyOf(key, ps[i])
    ensures var inc := Incumbent(ps, running);
            inc >= 0 && Active(ps[inc], tick) && b != inc ==> KeyOf(key, ps[b]) < KeyOf(key, ps[inc])
    ensures b >= 0 && b != Incumbent(ps, running) ==>
              forall i :: 0 <= i < b && Active(ps[i], tick) ==> KeyOf(key, ps[b]) < KeyOf(key, ps[i])
  {
    var best, inc := Best(ps, tick, key, |ps|), Incumbent(ps, running);
    if best >= 0 && inc >= 0 && ps[inc].remaining > 0 && KeyOf(key, ps[best]) == KeyOf(key, ps[inc]) then inc else best
  }

  function PidAt(ps: Table, b: int): int
    requires -1 <= b < |ps|
  {
    if b < 0 then IDLE else ps[b].pid
  }

  /** Non-preemptive dispatch: whoever runs goes on running; a free CPU takes the scan's winner. */
  function Dispatch(key: Key, running: int, ps: Table, tick: int): (int, int) {
    var pid := if running != IDLE then running else PidAt(ps, Best(ps, tick, key, |ps|));
    (pid, pid)
  }

  /** Preemptive dispatch: every tick is decided afresh. */
  function Reselect(key: Key, running: int, ps: Table, tick: int): (int, int) {
    var pid := PidAt(ps, Contend(ps, tick, key, running));
    (pid, pid)
  }

  /** The scheduler of `sjf.c` and of the first half of `priority.c`; its state is the running pid. */
  function NonPreemptive(key: Key): Scheduler<int> {
    Scheduler(
      _ => IDLE,
      (running, _, _, _) => running,
      (running, ps, _, tick) => Dispatch(key, running, ps, tick),
      (running, _, _, _) => running,
      (_, _, _, _) => IDLE)
  }

  /** The scheduler of `srtf.c` and of the second half of `priority.c`. */
  function Preemptive(key: Key): Scheduler<int> {
    Scheduler(
      _ => IDLE,
      (running, _, _, _) => running,
      (running, ps, _, tick) => Reselect(key, running, ps, tick),
      (running, _, _, _) => running,
      (_, _, _, _) => IDLE)
  }

  function Sjf(): Scheduler<int> { NonPreemptive(ByBurst) }
  function PriorityNp(): Scheduler<int> { NonPreemptive(ByPriority) }
  function Srtf(): Scheduler<int> { Preemptive(ByRemaining) }
  function PriorityP(): Scheduler<int> { Preemptive(ByPriority) }

  lemma {:induction false} ScanAdmits(key: Key, st: int, ps: Table, tick: int, k: nat)
    requires k <= |ps|
    ensures Admit(NonPreemptive(key), st, ps, tick, k) == st
    ensures Admit(Preemptive(key), st, ps, tick, k) == st
  {
    if k > 0 { ScanAdmits(key, st, ps, tick, k - 1); }
  }

  /** Whoever the scan policies remember is arrived and unfinished when a tick begins. */
  predicate RunsOn(running: int, ps: Table, tick: int) {
    running == IDLE || (IndexOf(ps, running) >= 0 && Active(ps[IndexOf(ps, running)], tick - 1))
  }

  ghost function RunsOnInv(): (int, Table, int) -> bool {
    (running, ps, tick) => RunsOn(running, ps, tick)
  }

  /** A pick that is idle only with nobody active, and otherwise can run. */
  predicate GoodPick(ps: Table, pick: int, tick: int) {
    if pick == IDLE then forall i :: 0 <= i < |ps| ==> !Active(ps[i], tick) else Runnable(ps, pick, tick)
  }

  lemma DispatchIsGood(key: Key, st: int, ps: Table, tick: nat)
    requires MidRun(ps, tick) && RunsOn(st, ps, tick)
    ensures GoodPick(ps, Dispatch(key, st, ps, tick).1, tick)
  {
    var b := Best(ps, tick, key, |ps|);
    if b >= 0 { IndexOfOwn(ps, b); }
  }

  lemma ReselectIsGood(key: Key, st: int, ps: Table, tick: nat)
    requires MidRun(ps, tick) && RunsOn(st, ps, tick)
    ensures GoodPick(ps, Reselect(key, st, ps, tick).1, tick)
  {
    var b := Contend(ps, tick, key, st);
    if b >= 0 { IndexOfOwn(ps, b); }
  }

  lemma NonPreemptiveTick(key: Key, st: int, ps: Table, cur: int, tick: nat)
    requires MidRun(ps, tick) && RunsOn(st, ps, tick)
    ensures GoodTick(NonPreemptive(key), RunsOnInv(), st, ps, cur, tick)
  {
    ScanAdmits(key, st, ps, tick, |ps|);
    var next := Dispatch(key, st, ps, tick).1;
    DispatchIsGood(key, st, ps, tick);
    SettleRunning(NonPreemptive(key), ps, next, tick);
  }

  lemma PreemptiveTick(key: Key, st: int, ps: Table, cur: int, tick: nat)
    requires MidRun(ps, tick) && RunsOn(st, ps, tick)
    ensures GoodTick(Preemptive(key), RunsOnInv(), st, ps, cur, tick)
  {
    ScanAdmits(key, st, ps, tick, |ps|);
    var next := Reselect(key, st, ps, tick).1;
    ReselectIsGood(key, st, ps, tick);
    SettleRunning(Preemptive(key), ps, next, tick);
  }

  lemma SettleRunning(sc: Scheduler<int>, ps: Table, next: int, tick: nat)
    requires MidRun(ps, tick) && (next == IDLE || Runnable(ps, next, tick))
    requires exists key :: sc == NonPreemptive(key) || sc == Preemptive(key)
    ensures Settle(sc, next, ps, next, tick) == (if Finishes(ps, next) then IDLE else next)
    ensures RunsOn(Settle(sc, next, ps, next, tick), Execute(ps, next, tick), tick + 1)
  {
    if next != IDLE {
      var k, after := IndexOf(ps, next), Execute(ps, next, tick);
      SameIndex(ps, after, next);
    }
  }

  lemma NonPreemptiveConserves(key: Key, P: Table)
    requires Fresh(P)
    ensures WorkConservingOn(NonPreemptive(key), P)
    ensures forall t: nat :: HoldsAt(NonPreemptive(key), P, RunsOnInv(), t)
  {
    forall st, ps, cur, tick: nat | MidRun(ps, tick) && RunsOnInv()(st, ps, tick)
      ensures GoodTick(NonPreemptive(key), RunsOnInv(), st, ps, cur, tick)
    {
      NonPreemptiveTick(key, st, ps, cur, tick);
    }
    WorkConservingByInvariant(NonPreemptive(key), P, RunsOnInv());
  }

  lemma PreemptiveConserves(key: Key, P: Table)
    requires Fresh(P)
    ensures WorkConservingOn(Preemptive(key), P)
    ensures forall t: nat :: HoldsAt(Preemptive(key), P, RunsOnInv(), t)
  {
    forall st, ps, cur, tick: nat | MidRun(ps, tick) && RunsOnInv()(st, ps, tick)
      ensures GoodTick(Preemptive(key), RunsOnInv(), st, ps, cur, tick)
    {
      PreemptiveTick(key, st, ps, cur, tick);
    }
    WorkConservingByInvariant(Preemptive(key), P, RunsOnInv());
  }
}
