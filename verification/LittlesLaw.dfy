/** The discrete form of Little's law: totals over processes are totals over ticks. */
module LittlesLaw {
  import opened Processes
  import opened Engine
  import opened Timelines

  function Turnaround(p: Process): int { p.completion - p.arrival }

  function Waiting(p: Process): int { Turnaround(p) - p.burst }

  function Response(p: Process): int { p.startTick - p.arrival }

  function TotalTurnaround(ps: Table, k: nat): int
    requires k <= |ps|
  {
    if k == 0 then 0 else TotalTurnaround(ps, k - 1) + Turnaround(ps[k - 1])
  }

  function TotalWaiting(ps: Table, k: nat): int
    requires k <= |ps|
  {
    if k == 0 then 0 else TotalWaiting(ps, k - 1) + Waiting(ps[k - 1])
  }

  /** How many of the first `k` processes are arrived and unfinished as tick `t` begins. */
  function ActiveCount(P: Table, tl: seq<int>, t: nat, k: nat): (c: nat)
    requires k <= |P| && t <= |tl|
    ensures c <= k
  {
    if k == 0 then 0 else ActiveCount(P, tl, t, k - 1) + (if ActiveAt(P, tl, k - 1, t) then 1 else 0)
  }

  /** How many of the first `k` processes are ready at tick `t` but not the one running. */
  function WaitingCount(P: Table, tl: seq<int>, t: nat, k: nat): nat
    requires k <= |P| && t < |tl|
  {
    if k == 0 then 0
    else WaitingCount(P, tl, t, k - 1) + (if ActiveAt(P, tl, k - 1, t) && tl[t] != P[k - 1].pid then 1 else 0)
  }

  function ActiveArea(P: Table, tl: seq<int>, t: nat): nat
    requires t <= |tl|
  {
    if t == 0 then 0 else ActiveArea(P, tl, t - 1) + ActiveCount(P, tl, t - 1, |P|)
  }

  function WaitingArea(P: Table, tl: seq<int>, t: nat): nat
    requires t <= |tl|
  {
    if t == 0 then 0 else WaitingArea(P, tl, t - 1) + WaitingCount(P, tl, t - 1, |P|)
  }

  /** How many of the first `t` ticks process `i` began arrived and unfinished. */
  function Stay(P: Table, tl: seq<int>, i: nat, t: nat): nat
    requires i < |P| && t <= |tl|
  {
    if t == 0 then 0 else Stay(P, tl, i, t - 1) + (if ActiveAt(P, tl, i, t - 1) then 1 else 0)
  }

  function SumStay(P: Table, tl: seq<int>, t: nat, k: nat): nat
    requires k <= |P| && t <= |tl|
  {
    if k == 0 then 0 else SumStay(P, tl, t, k - 1) + Stay(P, tl, k - 1, t)
  }

  /** A process is in the system from its arrival until its completion, and at no other tick. */
  lemma {:induction false} StayIsSpan(P: Table, tl: seq<int>, i: nat, t: nat)
    requires Fresh(P) && Legal(P, tl) && i < |P| && t <= |tl|
    ensures var p, q := P[i], Played(P[i], tl, t);
            Stay(P, tl, i, t) == (if t <= p.arrival then 0
                                  else if q.remaining > 0 then t - p.arrival
                                  else q.completion - p.arrival)
  {
    if t > 0 {
      StayIsSpan(P, tl, i, t - 1);
      Books(P, tl, i, t - 1);
      Books(P, tl, i, t);
      PlayedStatic(P[i], tl, t - 1);
    }
  }

  lemma {:induction false} SumStayStep(P: Table, tl: seq<int>, t: nat, k: nat)
    requires k <= |P| && t < |tl|
    ensures SumStay(P, tl, t + 1, k) == SumStay(P, tl, t, k) + ActiveCount(P, tl, t, k)
  {
    if k > 0 { SumStayStep(P, tl, t, k - 1); }
  }

  /** Counting the same process-ticks by rows and by columns. */
  lemma {:induction false} AreaByProcess(P: Table, tl: seq<int>, t: nat)
    requires t <= |tl|
    ensures SumStay(P, tl, t, |P|) == ActiveArea(P, tl, t)
  {
    if t == 0 {
      SumStayZero(P, tl, |P|);
    } else {
      AreaByProcess(P, tl, t - 1);
      SumStayStep(P, tl, t - 1, |P|);
    }
  }

  lemma {:induction false} SumStayZero(P: Table, tl: seq<int>, k: nat)
    requires k <= |P|
    ensures SumStay(P, tl, 0, k) == 0
  {
    if k > 0 { SumStayZero(P, tl, k - 1); }
  }

  lemma {:induction false} TurnaroundIsStay(P: Table, tl: seq<int>, ps: Table, k: nat)
    requires Fresh(P) && Legal(P, tl) && AllDone(P, tl, |tl|) && PlayedTable(P, tl, |tl|, ps) && k <= |P|
    ensures TotalTurnaround(ps, k) == SumStay(P, tl, |tl|, k)
    ensures TotalWaiting(ps, k) == TotalTurnaround(ps, k) - SumBurst(P, k)
  {
    if k > 0 {
      TurnaroundIsStay(P, tl, ps, k - 1);
      StayIsSpan(P, tl, k - 1, |tl|);
      Books(P, tl, k - 1, |tl|);
      PlayedStatic(P[k - 1], tl, |tl|);
    }
  }

  /** On a legal tick exactly one ready process is running, unless the tick is idle. */
  lemma {:induction false} WaitingIsActiveButOne(P: Table, tl: seq<int>, t: nat, k: nat)
    requires Fresh(P) && Legal(P, tl) && t < |tl| && k <= |P|
    ensures WaitingCount(P, tl, t, k)
         == ActiveCount(P, tl, t, k) - (if 0 <= IndexOf(P, tl[t]) < k then 1 else 0)
  {
    if k > 0 {
      WaitingIsActiveButOne(P, tl, t, k - 1);
      IndexOfOwn(P, k - 1);
      assert LegalTick(P, tl, t);
    }
  }

  lemma {:induction false} WaitingAreaIs(P: Table, tl: seq<int>, t: nat)
    requires Fresh(P) && Legal(P, tl) && t <= |tl|
    ensures WaitingArea(P, tl, t) == ActiveArea(P, tl, t) - BusyTicks(tl, t)
  {
    if t > 0 {
      WaitingAreaIs(P, tl, t - 1);
      WaitingIsActiveButOne(P, tl, t - 1, |P|);
      assert LegalTick(P, tl, t - 1);
    }
  }

  /** Little's law on a complete timeline. */
  lemma {:induction false} AreaLaw(P: Table, tl: seq<int>, ps: Table)
    requires Fresh(P) && Legal(P, tl) && AllDone(P, tl, |tl|) && PlayedTable(P, tl, |tl|, ps)
    ensures TotalTurnaround(ps, |P|) == ActiveArea(P, tl, |tl|)
    ensures TotalWaiting(ps, |P|) == WaitingArea(P, tl, |tl|) == ActiveArea(P, tl, |tl|) - SumBurst(P, |P|)
  {
    AreaByProcess(P, tl, |tl|);
    TurnaroundIsStay(P, tl, ps, |P|);
    WaitingAreaIs(P, tl, |tl|);
    BusyIsExecuted(P, tl, |tl|);
    SumTicksAllDone(P, tl, |tl|, |P|);
  }

  /** For any scheduler at all: the sum of turnarounds is the sum over ticks of the number of
      processes in the system, and the sum of waiting that of the ready but not running. */
  lemma Law<S>(sc: Scheduler<S>, P: Table)
    requires Fresh(P) && Run(sc, P).Some?
    ensures var s := Run(sc, P).value;
            && TotalTurnaround(s.procs, |P|) == ActiveArea(P, s.timeline, |s.timeline|)
            && TotalWaiting(s.procs, |P|) == WaitingArea(P, s.timeline, |s.timeline|)
  {
    AcceptedRun(sc, P);
    var s := Run(sc, P).value;
    AreaLaw(P, s.timeline, s.procs);
  }

  lemma {:induction false} NoneEarlier(tl: seq<int>, pid: int, t: nat)
    requires t <= |tl| && TicksOf(tl, pid, t) == 0
    ensures forall u :: 0 <= u < t ==> tl[u] != pid
  {
    if t > 0 { NoneEarlier(tl, pid, t - 1); }
  }

  /** Response times are the ticks from arrival to the first entry of a process in the timeline. */
  lemma ResponseIsFirstEntry<S>(sc: Scheduler<S>, P: Table, i: nat)
    requires Fresh(P) && i < |P| && Run(sc, P).Some?
    ensures var s := Run(sc, P).value; var first := P[i].arrival + Response(s.procs[i]);
            && P[i].arrival <= first < |s.timeline| && s.timeline[first] == P[i].pid
            && forall u :: 0 <= u < first ==> s.timeline[u] != P[i].pid
  {
    AcceptedRun(sc, P);
    var s := Run(sc, P).value;
    Books(P, s.timeline, i, |s.timeline|);
    PlayedStatic(P[i], s.timeline, |s.timeline|);
    NoneEarlier(s.timeline, P[i].pid, s.procs[i].startTick);
  }
}
