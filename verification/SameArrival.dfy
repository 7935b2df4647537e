/** With everybody arriving on one tick, preemption never finds a use. */
module SameArrival {
  import opened Processes
  import opened Engine
  import opened Timelines
  import opened LittlesLaw
  import opened Selection
  import opened Reductions
  import opened SrtfOptimality

  ghost predicate AllArriveAt(ps: Table, a: int) {
    forall i :: 0 <= i < |ps| ==> ps[i].arrival == a
  }

  function NpKey(byTime: bool): Key { if byTime then ByBurst else ByPriority }

  function PKey(byTime: bool): Key { if byTime then ByRemaining else ByPriority }

  /** The process on the CPU is as good as anybody by the preemptive key, and nobody else
      has started without finishing. */
  ghost predicate Leads(byTime: bool, a: int, running: int, ps: Table, tick: int) {
    && AllArriveAt(ps, a)
    && (forall i :: 0 <= i < |ps| && ps[i].pid != running && ps[i].remaining > 0 ==> ps[i].remaining == ps[i].burst)
    && (running != IDLE ==>
          var k := IndexOf(ps, running);
          && k >= 0 && Active(ps[k], tick - 1)
          && forall i :: 0 <= i < |ps| && ps[i].remaining > 0 ==>
              KeyOf(PKey(byTime), ps[k]) <= KeyOf(PKey(byTime), ps[i]))
  }

  ghost function RelF(byTime: bool, a: int): (int, int, Table, int) -> bool {
    (s, u, ps, tick) => s == u && Leads(byTime, a, s, ps, tick)
  }

  /** Both schedulers make the same choice, and the chosen process leads. */
  lemma SameChoice(byTime: bool, a: int, running: int, ps: Table, tick: nat)
    requires MidRun(ps, tick) && Leads(byTime, a, running, ps, tick)
    ensures var d := Dispatch(NpKey(byTime), running, ps, tick);
            && d == Reselect(PKey(byTime), running, ps, tick)
            && (d.0 != IDLE && Runnable(ps, d.0, tick) ==>
                  && (forall i :: 0 <= i < |ps| && ps[i].pid != d.0 && ps[i].remaining > 0 ==>
                      ps[i].remaining == ps[i].burst)
                  && (forall i :: 0 <= i < |ps| && ps[i].remaining > 0 ==>
                        KeyOf(PKey(byTime), ps[IndexOf(ps, d.0)]) <= KeyOf(PKey(byTime), ps[i])))
  {
    var b := Best(ps, tick, PKey(byTime), |ps|);
    if running == IDLE {
      forall i | 0 <= i < |ps| && Active(ps[i], tick)
        ensures KeyOf(NpKey(byTime), ps[i]) == KeyOf(PKey(byTime), ps[i])
      {
      }
      if b >= 0 {
        BestUnique(ps, tick, NpKey(byTime), b);
        IndexOfOwn(ps, b);
      }
    } else {
      var k := IndexOf(ps, running);
      assert Active(ps[k], tick) && KeyOf(PKey(byTime), ps[b]) == KeyOf(PKey(byTime), ps[k]);
    }
  }

  lemma LeadsOn(byTime: bool, a: int, next: int, ps: Table, tick: nat)
    requires MidRun(ps, tick) && AllArriveAt(ps, a) && next != IDLE && Runnable(ps, next, tick)
    requires forall i :: 0 <= i < |ps| && ps[i].pid != next && ps[i].remaining > 0 ==> ps[i].remaining == ps[i].burst
    requires forall i :: 0 <= i < |ps| && ps[i].remaining > 0 ==>
               KeyOf(PKey(byTime), ps[IndexOf(ps, next)]) <= KeyOf(PKey(byTime), ps[i])
    ensures Leads(byTime, a, if Finishes(ps, next) then IDLE else next, Execute(ps, next, tick), tick + 1)
  {
    var after, k := Execute(ps, next, tick), IndexOf(ps, next);
    SameIndex(ps, after, next);
    forall i | 0 <= i < |ps|
      ensures i != k ==> after[i] == ps[i] && ps[i].pid != next
    {
      IndexOfOwn(ps, i);
    }
  }

  lemma SameArrivalTick(byTime: bool, a: int, running: int, ps: Table, cur: int, tick: nat)
    requires MidRun(ps, tick) && Leads(byTime, a, running, ps, tick)
    ensures SameTick(NonPreemptive(NpKey(byTime)), Preemptive(PKey(byTime)), RelF(byTime, a), running, running, ps,
            cur, tick)
  {
    ScanAdmits(NpKey(byTime), running, ps, tick, |ps|);
    ScanAdmits(PKey(byTime), running, ps, tick, |ps|);
    SameChoice(byTime, a, running, ps, tick);
    var next := Dispatch(NpKey(byTime), running, ps, tick).0;
    if next != IDLE && Runnable(ps, next, tick) { LeadsOn(byTime, a, next, ps, tick); }
  }

  lemma SamePolicies(byTime: bool, a: int, P: Table)
    requires Fresh(P) && AllArriveAt(P, a)
    ensures SameSim(Run(NonPreemptive(NpKey(byTime)), P), Run(Preemptive(PKey(byTime)), P))
  {
    var np, p := NonPreemptive(NpKey(byTime)), Preemptive(PKey(byTime));
    forall s, u, ps, cur, tick: nat | MidRun(ps, tick) && RelF(byTime, a)(s, u, ps, tick)
      ensures SameTick(np, p, RelF(byTime, a), s, u, ps, cur, tick)
    {
      SameArrivalTick(byTime, a, s, ps, cur, tick);
    }
    SameRuns(np, p, P, RelF(byTime, a));
  }

  /** When all processes arrive on one tick: SJF and SRTF have the same run, so have the two
      priority schedulers, and SJF's total waiting is least among all accepted runs. */
  lemma {:induction false} OneArrivalTick<S>(sc: Scheduler<S>, a: int, P: Table)
    requires Fresh(P) && AllArriveAt(P, a)
    ensures SameSim(Run(Sjf(), P), Run(Srtf(), P))
    ensures SameSim(Run(PriorityNp(), P), Run(PriorityP(), P))
    ensures Run(sc, P).Some? ==>
              && Run(Sjf(), P).Some?
              && TotalWaiting(Run(Sjf(), P).value.procs, |P|) <= TotalWaiting(Run(sc, P).value.procs, |P|)
  {
    SamePolicies(true, a, P);
    SamePolicies(false, a, P);
    if Run(sc, P).Some? { SrtfMinimisesWaiting(sc, P); }
  }
}
