/** What SJF, SRTF and both priority policies serve. */
module ScanDisciplines {
  import opened Processes
  import opened Engine
  import opened Timelines
  import opened WorkConservation
  import opened Selection
  import opened Disciplines

  function Unfinished(ps: Table, pid: int): int {
    var k := IndexOf(ps, pid);
    if pid != IDLE && k >= 0 && ps[k].remaining > 0 then pid else IDLE
  }

  /** The scan's memory, in terms of the timeline: the pid of the last tick, if unfinished. */
  predicate Remembers(running: int, ps: Table, tl: seq<int>) {
    running == if |tl| == 0 then IDLE else Unfinished(ps, tl[|tl| - 1])
  }

  /** An active process is the one remembered exactly when it ran last. */
  lemma RemembersLast(running: int, ps: Table, tl: seq<int>, i: nat)
    requires MidRun(ps, |tl|) && i < |ps| && Active(ps[i], |tl|) && Remembers(running, ps, tl)
    ensures running == ps[i].pid <==> RanLast(tl, ps[i].pid)
    ensures Incumbent(ps, running) == i <==> RanLast(tl, ps[i].pid)
  {
    IndexOfOwn(ps, i);
  }

  /** A rank that puts the key first, and whoever ran last second. */
  ghost predicate KeyFirst(rank: Ranking, key: Key, P: Table, ps: Table, tl: seq<int>) {
    |ps| == |P| && forall i :: 0 <= i < |P| && Active(ps[i], |tl|) ==>
                     rank(P, tl, P[i]) == Rank(KeyOf(key, ps[i]), LastFirst(tl, P[i]), 0)
  }

  /** A rank that puts whoever ran last first, and the key second. */
  ghost predicate LastThenKey(rank: Ranking, key: Key, P: Table, ps: Table, tl: seq<int>) {
    |ps| == |P| && forall i :: 0 <= i < |P| && Active(ps[i], |tl|) ==>
                     rank(P, tl, P[i]) == Rank(LastFirst(tl, P[i]), KeyOf(key, ps[i]), 0)
  }

  lemma ReselectServes(rank: Ranking, key: Key, P: Table, tl: seq<int>, ps: Table, running: int)
    requires Fresh(P) && PlayedTable(P, tl, |tl|, ps) && MidRun(ps, |tl|)
    requires RunsOn(running, ps, |tl|) && Remembers(running, ps, tl) && KeyFirst(rank, key, P, ps, tl)
    ensures Serves(rank, P, tl, Reselect(key, running, ps, |tl|).1)
  {
    var b := Contend(ps, |tl|, key, running);
    if b < 0 {
      ServesNobody(rank, P, tl, ps);
    } else {
      PlayedActive(P, tl, ps);
      RemembersLast(running, ps, tl, b);
      forall j | 0 <= j < |P| && j != b && Active(ps[j], |tl|)
        ensures Ahead(rank(P, tl, P[b]), b, rank(P, tl, P[j]), j)
      {
        RemembersLast(running, ps, tl, j);
      }
      ServesSlot(rank, P, tl, ps, b);
    }
  }

  lemma DispatchServes(rank: Ranking, key: Key, P: Table, tl: seq<int>, ps: Table, running: int)
    requires Fresh(P) && PlayedTable(P, tl, |tl|, ps) && MidRun(ps, |tl|)
    requires RunsOn(running, ps, |tl|) && Remembers(running, ps, tl) && LastThenKey(rank, key, P, ps, tl)
    ensures Serves(rank, P, tl, Dispatch(key, running, ps, |tl|).1)
  {
    var b := if running != IDLE then IndexOf(ps, running) else Best(ps, |tl|, key, |ps|);
    if b < 0 {
      ServesNobody(rank, P, tl, ps);
    } else {
      PlayedActive(P, tl, ps);
      RemembersLast(running, ps, tl, b);
      forall j | 0 <= j < |P| && j != b && Active(ps[j], |tl|)
        ensures Ahead(rank(P, tl, P[b]), b, rank(P, tl, P[j]), j)
      {
        RemembersLast(running, ps, tl, j);
      }
      ServesSlot(rank, P, tl, ps, b);
    }
  }

  // ---------- Runs ----------

  lemma LastUnfinished(ps: Table, next: int, tick: int)
    requires next == IDLE || Runnable(ps, next, tick)
    ensures Unfinished(Execute(ps, next, tick), next) == if Finishes(ps, next) then IDLE else next
  {
    if next != IDLE { SameIndex(ps, Execute(ps, next, tick), next); }
  }

  /** A tick of one of the four schedulers leaves the pid it ran in memory, if unfinished. */
  lemma RemembersNext(sc: Scheduler<int>, s: Sim<int>, s': Sim<int>, next: int)
    requires (exists key :: sc == NonPreemptive(key) || sc == Preemptive(key)) && MidRun(s.procs, |s.timeline|)
    requires Step(sc, s) == Some(s') && Choice(sc, s) == (next, next)
    ensures Remembers(s'.st, s'.procs, s'.timeline)
  {
    var shape := StepShape(sc, s, s');
    SettleRunning(sc, s.procs, next, |s.timeline|);
    LastUnfinished(s.procs, next, |s.timeline|);
  }

  /** The first `t` ticks follow the ranking, and the memory is that of the last of them. */
  ghost predicate ServedWell(sc: Scheduler<int>, P: Table, rank: Ranking, t: nat) {
    && ObeysFor(sc, P, rank, t)
    && var s := After(sc, P, t).value; Remembers(s.st, s.procs, s.timeline)
  }

  lemma ServesNext(sc: Scheduler<int>, P: Table, rank: Ranking, t: nat, s: Sim<int>, next: int)
    requires (exists key :: sc == NonPreemptive(key) || sc == Preemptive(key)) && MidRun(s.procs, t)
    requires ObeysFor(sc, P, rank, t) && After(sc, P, t) == Some(s) && After(sc, P, t + 1).Some?
    requires Choice(sc, s) == (next, next) && Serves(rank, P, s.timeline, next)
    ensures ServedWell(sc, P, rank, t + 1)
  {
    var s' := After(sc, P, t + 1).value;
    Stepwise(sc, P, t, s, s');
    ObeysNext(sc, P, rank, t);
    RemembersNext(sc, s, s', next);
  }

  /** A run of a scanning policy as tick `t` begins. */
  lemma StateAt(sc: Scheduler<int>, P: Table, rank: Ranking, t: nat) returns (s: Sim<int>)
    requires Fresh(P) && HoldsAt(sc, P, RunsOnInv(), t) && ServedWell(sc, P, rank, t)
    ensures After(sc, P, t) == Some(s) && |s.timeline| == t && Remembers(s.st, s.procs, s.timeline)
    ensures MidRun(s.procs, t) && RunsOn(s.st, s.procs, t) && PlayedTable(P, s.timeline, t, s.procs)
  {
    s := After(sc, P, t).value;
    Ledger(sc, P, t);
  }

  lemma DispatchedChoice(key: Key, s: Sim<int>)
    ensures Choice(NonPreemptive(key), s) == Dispatch(key, s.st, s.procs, |s.timeline|)
  {
    ScanAdmits(key, s.st, s.procs, |s.timeline|, |s.procs|);
  }

  lemma ReselectedChoice(key: Key, s: Sim<int>)
    ensures Choice(Preemptive(key), s) == Reselect(key, s.st, s.procs, |s.timeline|)
  {
    ScanAdmits(key, s.st, s.procs, |s.timeline|, |s.procs|);
  }

  lemma NonPreemptiveNext(key: Key, P: Table, rank: Ranking, t: nat)
    requires Fresh(P) && ServedWell(NonPreemptive(key), P, rank, t)
    requires HoldsAt(NonPreemptive(key), P, RunsOnInv(), t) && GoodRun(NonPreemptive(key), P, t + 1)
    requires forall tl, ps: Table :: PlayedTable(P, tl, |tl|, ps) ==> LastThenKey(rank, key, P, ps, tl)
    ensures ServedWell(NonPreemptive(key), P, rank, t + 1)
  {
    var s := StateAt(NonPreemptive(key), P, rank, t);
    DispatchedChoice(key, s);
    DispatchServes(rank, key, P, s.timeline, s.procs, s.st);
    ServesNext(NonPreemptive(key), P, rank, t, s, Dispatch(key, s.st, s.procs, t).1);
  }

  lemma {:induction false} NonPreemptiveServes(key: Key, P: Table, rank: Ranking, t: nat)
    requires Fresh(P)
    requires forall tl, ps: Table :: PlayedTable(P, tl, |tl|, ps) ==> LastThenKey(rank, key, P, ps, tl)
    ensures ServedWell(NonPreemptive(key), P, rank, t)
  {
    NonPreemptiveConserves(key, P);
    if t > 0 {
      NonPreemptiveServes(key, P, rank, t - 1);
      assert HoldsAt(NonPreemptive(key), P, RunsOnInv(), t - 1) && GoodRun(NonPreemptive(key), P, t);
      NonPreemptiveNext(key, P, rank, t - 1);
    }
  }

  lemma PreemptiveNext(key: Key, P: Table, rank: Ranking, t: nat)
    requires Fresh(P) && ServedWell(Preemptive(key), P, rank, t)
    requires HoldsAt(Preemptive(key), P, RunsOnInv(), t) && GoodRun(Preemptive(key), P, t + 1)
    requires forall tl, ps: Table :: PlayedTable(P, tl, |tl|, ps) ==> KeyFirst(rank, key, P, ps, tl)
    ensures ServedWell(Preemptive(key), P, rank, t + 1)
  {
    var s := StateAt(Preemptive(key), P, rank, t);
    ReselectedChoice(key, s);
    ReselectServes(rank, key, P, s.timeline, s.procs, s.st);
    ServesNext(Preemptive(key), P, rank, t, s, Reselect(key, s.st, s.procs, t).1);
  }

  lemma {:induction false} PreemptiveServes(key: Key, P: Table, rank: Ranking, t: nat)
    requires Fresh(P)
    requires forall tl, ps: Table :: PlayedTable(P, tl, |tl|, ps) ==> KeyFirst(rank, key, P, ps, tl)
    ensures ServedWell(Preemptive(key), P, rank, t)
  {
    PreemptiveConserves(key, P);
    if t > 0 {
      PreemptiveServes(key, P, rank, t - 1);
      assert HoldsAt(Preemptive(key), P, RunsOnInv(), t - 1) && GoodRun(Preemptive(key), P, t);
      PreemptiveNext(key, P, rank, t - 1);
    }
  }

  /** SJF: on every tick of every run whoever ran last goes on if unfinished, and otherwise the
      CPU goes to the first in the table of the active processes of least burst. */
  lemma SjfObeys(P: Table)
    requires Fresh(P)
    ensures Obeys(Sjf(), P, SjfRank())
  {
    forall tl, ps: Table | PlayedTable(P, tl, |tl|, ps)
      ensures LastThenKey(SjfRank(), ByBurst, P, ps, tl)
    {
      PlayedSame(P, tl, |tl|, ps);
    }
    forall t: nat ensures ObeysFor(Sjf(), P, SjfRank(), t) { NonPreemptiveServes(ByBurst, P, SjfRank(), t); }
  }

  lemma PlayedPriorities(P: Table, tl: seq<int>, ps: Table)
    requires PlayedTable(P, tl, |tl|, ps)
    ensures forall i :: 0 <= i < |P| ==> ps[i].priority == P[i].priority
  {
    forall i | 0 <= i < |P| ensures ps[i].priority == P[i].priority { PlayedStatic(P[i], tl, |tl|); }
  }

  /** Non-preemptive priority: the same with the smallest priority number. */
  lemma PriorityNpObeys(P: Table)
    requires Fresh(P)
    ensures Obeys(PriorityNp(), P, PriorityNpRank())
  {
    forall tl, ps: Table | PlayedTable(P, tl, |tl|, ps)
      ensures LastThenKey(PriorityNpRank(), ByPriority, P, ps, tl)
    {
      PlayedPriorities(P, tl, ps);
    }
    forall t: nat ensures ObeysFor(PriorityNp(), P, PriorityNpRank(), t) {
      NonPreemptiveServes(ByPriority, P, PriorityNpRank(), t);
    }
  }

  /** SRTF: on every tick of every run the CPU goes to an active process with the least burst
      left to execute: to the one that ran last if it is such a one, and otherwise to the first
      in the table. */
  lemma SrtfObeys(P: Table)
    requires Fresh(P)
    ensures Obeys(Srtf(), P, SrtfRank())
  {
    forall tl, ps: Table | PlayedTable(P, tl, |tl|, ps)
      ensures KeyFirst(SrtfRank(), ByRemaining, P, ps, tl)
    {
      forall i | 0 <= i < |P| ensures ps[i].remaining == P[i].burst - TicksOf(tl, P[i].pid, |tl|) {
        PlayedStatic(P[i], tl, |tl|);
      }
    }
    forall t: nat ensures ObeysFor(Srtf(), P, SrtfRank(), t) { PreemptiveServes(ByRemaining, P, SrtfRank(), t); }
  }

  /** Preemptive priority: the same with the smallest priority number. */
  lemma PriorityPObeys(P: Table)
    requires Fresh(P)
    ensures Obeys(PriorityP(), P, PriorityPRank())
  {
    forall tl, ps: Table | PlayedTable(P, tl, |tl|, ps)
      ensures KeyFirst(PriorityPRank(), ByPriority, P, ps, tl)
    {
      PlayedPriorities(P, tl, ps);
    }
    forall t: nat ensures ObeysFor(PriorityP(), P, PriorityPRank(), t) {
      PreemptiveServes(ByPriority, P, PriorityPRank(), t);
    }
  }
}
