/** The process table of `src/process.h`.

    One record per process, loaded once, sorted by arrival and then pid, and updated in place
    by the engine. */
module Processes {

  const IDLE: int := -1
  const NOT_STARTED: int := -1
  const MAX_PROCESSES: int := 64
  const MAX_TICKS: int := 8192

  datatype Option<+T> = None | Some(value: T)

  datatype Process = Process(
    pid: int,
    arrival: int,
    burst: int,
    priority: int,
    nice: int,
    queue: int,
    remaining: int,
    startTick: int,
    completion: int)

  type Table = seq<Process>

  /** Arrived by `tick` and not yet finished: the filter of every selection scan. */
  predicate Active(p: Process, tick: int) {
    p.arrival <= tick && p.remaining > 0
  }

  /** The order of the loader's sort: arrival, then pid. */
  predicate Before(p: Process, q: Process) {
    p.arrival < q.arrival || (p.arrival == q.arrival && p.pid < q.pid)
  }

  ghost predicate Sorted(ps: Table) {
    forall i, j :: 0 <= i < j < |ps| ==> Before(ps[i], ps[j]) && ps[i].pid != ps[j].pid
  }

  /** The field bounds that the loader enforces. */
  predicate InBounds(p: Process) {
    && 1 <= p.pid && 0 <= p.arrival && 1 <= p.burst
    && 0 <= p.priority <= 9 && -5 <= p.nice <= 5 && 0 <= p.queue <= 2
  }

  predicate Untouched(p: Process) {
    p.remaining == p.burst && p.startTick == NOT_STARTED && p.completion == NOT_STARTED
  }

  /** A table as the loader leaves it, of any size. */
  ghost predicate Fresh(ps: Table) {
    && Sorted(ps)
    && forall i :: 0 <= i < |ps| ==> InBounds(ps[i]) && Untouched(ps[i])
  }

  /** A table as the loader returns it: fresh, not empty, and at most `MAX_PROCESSES` long. */
  ghost predicate Loaded(ps: Table) {
    Fresh(ps) && 1 <= |ps| <= MAX_PROCESSES
  }

  /** Every pid has a slot in an array that is indexed by pid, as MLFQ and CFS keep one. The
      loader does not see to this. */
  ghost predicate PidsFit(ps: Table) {
    forall i :: 0 <= i < |ps| ==> 0 <= ps[i].pid <= MAX_PROCESSES
  }

  /** A fresh table that MLFQ and CFS can index. */
  ghost predicate Indexable(ps: Table) {
    Fresh(ps) && PidsFit(ps)
  }

  /** A table in the middle of a run, at the start of `tick`: nothing that has yet to
      arrive has been touched. */
  ghost predicate MidRun(ps: Table, tick: int) {
    && Sorted(ps)
    && forall i :: 0 <= i < |ps| ==>
         && InBounds(ps[i]) && 0 <= ps[i].remaining <= ps[i].burst
         && (ps[i].arrival >= tick ==> Untouched(ps[i]))
  }

  function IndexAmong(ps: Table, pid: int, n: nat): (k: int)
    requires n <= |ps|
    ensures -1 <= k < n
    ensures k >= 0 ==> ps[k].pid == pid
  {
    if n == 0 then -1
    else
      var k := IndexAmong(ps, pid, n - 1);
      if k >= 0 then k else if ps[n - 1].pid == pid then n - 1 else -1
  }

  /** The index of the first process with this pid, or -1. */
  function IndexOf(ps: Table, pid: int): (k: int)
    ensures -1 <= k < |ps|
    ensures k >= 0 ==> ps[k].pid == pid
    ensures k >= 0 ==> forall j :: 0 <= j < k ==> ps[j].pid != pid
    ensures k == -1 ==> forall j :: 0 <= j < |ps| ==> ps[j].pid != pid
  {
    IndexAmongFirst(ps, pid, |ps|);
    IndexAmong(ps, pid, |ps|)
  }

  lemma {:induction false} IndexAmongFirst(ps: Table, pid: int, n: nat)
    requires n <= |ps|
    ensures var k := IndexAmong(ps, pid, n); forall j :: 0 <= j < (if k >= 0 then k else n) ==> ps[j].pid != pid
  {
    if n > 0 { IndexAmongFirst(ps, pid, n - 1); }
  }

  /** With distinct pids, looking a process up by its own pid finds its own slot. */
  lemma IndexOfOwn(ps: Table, i: nat)
    requires Sorted(ps) && i < |ps|
    ensures IndexOf(ps, ps[i].pid) == i
  {
    var k := IndexOf(ps, ps[i].pid);
    assert k >= 0 && ps[k].pid == ps[i].pid;
  }

  /** The pids of the active processes among the first `k`, in table order. */
  function ReadyPids(ps: Table, tick: int, k: nat): (r: seq<int>)
    requires k <= |ps|
  {
    if k == 0 then []
    else if Active(ps[k - 1], tick) then ReadyPids(ps, tick, k - 1) + [ps[k - 1].pid]
    else ReadyPids(ps, tick, k - 1)
  }

  function Ready(ps: Table, tick: int): seq<int> {
    ReadyPids(ps, tick, |ps|)
  }

  /** The pids arriving exactly at `tick` among the first `k`, in table order. */
  function ArrivingPids(ps: Table, tick: int, k: nat): seq<int>
    requires k <= |ps|
  {
    if k == 0 then []
    else if ps[k - 1].arrival == tick then ArrivingPids(ps, tick, k - 1) + [ps[k - 1].pid]
    else ArrivingPids(ps, tick, k - 1)
  }

  function Arriving(ps: Table, tick: int): seq<int> {
    ArrivingPids(ps, tick, |ps|)
  }

  /** The ready list holds exactly the active pids. */
  lemma {:induction false} InReadyPids(ps: Table, tick: int, k: nat, x: int)
    requires k <= |ps|
    ensures x in ReadyPids(ps, tick, k) <==> exists i :: 0 <= i < k && ps[i].pid == x && Active(ps[i], tick)
  {
    if k > 0 {
      InReadyPids(ps, tick, k - 1, x);
      if exists i :: 0 <= i < k - 1 && ps[i].pid == x && Active(ps[i], tick) {
        var i :| 0 <= i < k - 1 && ps[i].pid == x && Active(ps[i], tick);
        assert 0 <= i < k && ps[i].pid == x && Active(ps[i], tick);
      }
    }
  }

  lemma InReady(ps: Table, tick: int, x: int)
    requires Sorted(ps)
    ensures x in Ready(ps, tick) <==> IndexOf(ps, x) >= 0 && Active(ps[IndexOf(ps, x)], tick)
  {
    InReadyPids(ps, tick, |ps|, x);
    if x in Ready(ps, tick) {
      var i :| 0 <= i < |ps| && ps[i].pid == x && Active(ps[i], tick);
      IndexOfOwn(ps, i);
    }
  }

  /** Nobody is ready exactly when nobody is active. */
  lemma ReadyEmpty(ps: Table, tick: int)
    requires Ready(ps, tick) == []
    ensures forall i :: 0 <= i < |ps| ==> !Active(ps[i], tick)
  {
    forall i | 0 <= i < |ps|
      ensures !Active(ps[i], tick)
    {
      InReadyPids(ps, tick, |ps|, ps[i].pid);
    }
  }

  /** Admission extends the ready list at its tail: those ready a tick ago, then the
      arrivals. */
  lemma {:induction false} ReadySplit(ps: Table, tick: int, k: nat)
    requires MidRun(ps, tick) && k <= |ps|
    ensures ReadyPids(ps, tick, k) == ReadyPids(ps, tick - 1, k) + ArrivingPids(ps, tick, k)
  {
    if k > 0 {
      ReadySplit(ps, tick, k - 1);
      if ps[k - 1].arrival < tick {
        NoneArriving(ps, tick, k - 1);
      }
    }
  }

  lemma {:induction false} NoneArriving(ps: Table, tick: int, k: nat)
    requires Sorted(ps) && k < |ps| && ps[k].arrival < tick
    ensures ArrivingPids(ps, tick, k) == []
  {
    if k > 0 {
      assert Before(ps[k - 1], ps[k]);
      NoneArriving(ps, tick, k - 1);
    }
  }

  /** The pids of a ready list are distinct. */
  lemma {:induction false} ReadyDistinct(ps: Table, tick: int, k: nat)
    requires Sorted(ps) && k <= |ps|
    ensures forall x :: multiset(ReadyPids(ps, tick, k))[x] <= 1
    ensures |ReadyPids(ps, tick, k)| <= k
  {
    if k > 0 {
      ReadyDistinct(ps, tick, k - 1);
      var x := ps[k - 1].pid;
      InReadyPids(ps, tick, k - 1, x);
      assert x !in ReadyPids(ps, tick, k - 1);
    }
  }
}
