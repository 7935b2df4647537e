/** CFS runs that are unfair, or displace negative nice. */
module CfsWitnesses {
  import opened Processes
  import opened Engine
  import opened Timelines
  import opened Selection
  import opened Cfs
  import opened CfsFairness

  // ---------- Companions below everybody else ----------

  /** One process at nice 5 from tick 0, and two more together at tick 2. */
  ghost predicate LatePair(P: Table) {
    && Indexable(P) && |P| == 3
    && P[0].arrival == 0 && P[0].burst >= 3 && P[0].nice == 5 && P[1].arrival == P[2].arrival == 2
  }

  lemma LatePairExists()
    ensures LatePair([
                       Process(1, 0, 3, 0, 5, 0, 3, -1, -1),
                       Process(2, 2, 1, 0, 5, 0, 1, -1, -1),
                       Process(3, 2, 1, 0, 5, 0, 1, -1, -1)])
  {
  }

  lemma FirstRunsAlone(P: Table, t: nat)
    requires LatePair(P) && t < 2
    ensures RanAt(P, t, 0)
  {
    var s, a, b, s' := OneTick(P, t);
    PlayedSame(P, s.timeline, t, s.procs);
    PlayedStatic(P[0], s.timeline, t);
    assert Active(s.procs[0], t);
  }

  lemma FirstStartsAtZero(P: Table)
    requires LatePair(P)
    ensures Placed(P, 0, 0) == 0
  {
    AdmitLone(Init(), P, 0, 3, 0);
    if MinOther(Init().vr, P, P[0].pid, 0, 3).Some? {
      var m := MinOtherIsSomebodys(Init().vr, P, P[0].pid, 0, 3);
    }
  }

  lemma PairStartsAtZero(P: Table)
    requires LatePair(P)
    ensures Placed(P, 2, 1) == 0
  {
    StaysInOrder(P, 2);
    var s, a, b, s' := OneTick(P, 2);
    PlayedSame(P, s.timeline, 2, s.procs);
    CompanionsAtZero(s.st, s.procs, 2, 1, 2);
  }

  lemma FirstGainsThree(P: Table, t: nat, next: nat)
    requires LatePair(P) && t < 2 && next == t + 1
    ensures Placed(P, next, 0) == Placed(P, t, 0) + 3
  {
    FirstRunsAlone(P, t);
    PlacedStep(P, t, 0);
    assert Increment(5) == 3;
  }

  /** The pair starts 6 below a process with the largest increment there is, 3: the bound
      fails when processes arrive together after tick 0. */
  lemma LatePairIsUnfair(P: Table)
    requires LatePair(P)
    ensures Placed(P, 2, 0) == 6 && Placed(P, 2, 1) == 0
  {
    FirstGainsThree(P, 0, 1);
    FirstGainsThree(P, 1, 2);
    FirstStartsAtZero(P);
    PairStartsAtZero(P);
  }

  // ---------- Negative nice loses the CPU ----------

  /** A process at nice 5 from tick 0, one of negative nice that joins it, and then two more
      together. */
  ghost predicate Displacement(P: Table) {
    && Indexable(P) && |P| == 4
    && P[0].arrival == 0 && P[0].burst >= 4 && P[0].nice == 5
    && P[1].arrival == 1 && P[1].burst >= 3 && P[1].nice < 0
    && P[2].arrival == P[3].arrival == 3
  }

  lemma DisplacementExists()
    ensures Displacement([
                           Process(1, 0, 4, 0, 5, 0, 4, -1, -1),
                           Process(2, 1, 3, 0, -5, 0, 3, -1, -1),
                           Process(3, 3, 1, 0, 0, 0, 1, -1, -1),
                           Process(4, 3, 1, 0, 0, 0, 1, -1, -1)])
  {
  }

  /** A process that has arrived is ready while it cannot have had its whole burst. */
  lemma ReadyYet(P: Table, i: nat, t: nat)
    requires Fresh(P) && i < |P| && P[i].arrival <= t < P[i].arrival + P[i].burst
    ensures ReadyAt(P, i, t)
  {
    var s := StateAt(P, t);
    Ledger(CfsScheduler(), P, t);
    Books(P, s.timeline, i, t);
    PlayedStatic(P[i], s.timeline, t);
  }

  /** Whoever is ready and strictly below everybody else who is runs. */
  lemma StrictlyLeastRuns(P: Table, t: nat, i: nat)
    requires Fresh(P) && i < |P| && ReadyAt(P, i, t)
    requires forall j :: 0 <= j < |P| && j != i && P[j].arrival <= t ==> Placed(P, t, i) < Placed(P, t, j)
    ensures RanAt(P, t, i)
  {
    var s, a, b, s' := OneTick(P, t);
    PlayedSame(P, s.timeline, t, s.procs);
    assert Active(s.procs[i], t);
    LeastKey(a.vr, s.procs, t, b, a.running);
    assert b != i ==> Placed(P, t, b) <= Placed(P, t, i);
  }

  /** Whoever ran last, is ready and has nobody below it runs on. */
  lemma LeastRunsOn(P: Table, t: nat, i: nat)
    requires Fresh(P) && i < |P| && ReadyAt(P, i, t + 1) && RanAt(P, t, i)
    requires forall j :: 0 <= j < |P| && P[j].arrival <= t + 1 ==> Placed(P, t + 1, i) <= Placed(P, t + 1, j)
    ensures RanAt(P, t + 1, i)
  {
    var s := StateAt(P, t + 1);
    ReadyRemaining(P, i, t + 1, s);
    StillRunning(P, t, i, s);
    var r, a, b, r' := OneTick(P, t + 1);
    PlayedSame(P, r.timeline, t + 1, r.procs);
    assert Active(s.procs[i], t + 1);
    forall j | 0 <= j < |P| && Active(s.procs[j], t + 1)
      ensures Vruntime(a.vr, s.procs[i].pid) <= Vruntime(a.vr, s.procs[j].pid)
    {
      assert Placed(P, t + 1, i) <= Placed(P, t + 1, j);
    }
    LeastIncumbentWins(a.vr, s.procs, t + 1, i);
  }

  lemma StillRunning(P: Table, t: nat, i: nat, s': Sim<State>)
    requires Fresh(P) && i < |P| && After(CfsScheduler(), P, t + 1) == Some(s')
    requires s'.timeline[t] == P[i].pid && |s'.procs| == |P| && s'.procs[i].remaining > 0
    ensures s'.st.running == P[i].pid
  {
    var s, a, b, s1 := OneTick(P, t);
    PlayedSame(P, s.timeline, t, s.procs);
    ExecuteOne(s.procs, P[i].pid, t, i);
  }

  /** Nobody else is there on tick 0, and the second arrival is placed beside the first. */
  lemma FirstPlaces(P: Table)
    requires Displacement(P)
    ensures Placed(P, 0, 0) == 0 && RanAt(P, 0, 0) && Placed(P, 1, 0) == 3
  {
    AdmitLone(Init(), P, 0, 4, 0);
    if MinOther(Init().vr, P, P[0].pid, 0, 4).Some? {
      var m := MinOtherIsSomebodys(Init().vr, P, P[0].pid, 0, 4);
    }
    ReadyYet(P, 0, 0);
    StrictlyLeastRuns(P, 0, 0);
    assert Increment(5) == 3;
    PlacedStep(P, 0, 0);
  }

  /** A lone arrival with one other process ready is placed where that one is. */
  lemma PlacedBeside(P: Table, t: nat, p: nat, q: nat)
    requires Indexable(P) && p < |P| && q < |P| && p != q && P[p].arrival == t && ReadyAt(P, q, t) && P[q].arrival < t
    requires forall j :: 0 <= j < |P| && j != p && j != q ==> P[j].arrival > t
    ensures Placed(P, t, p) == Placed(P, t, q)
  {
    StaysInOrder(P, t);
    var s, a, b, s' := OneTick(P, t);
    PlayedSame(P, s.timeline, t, s.procs);
    AdmitLone(s.st, s.procs, t, |P|, p);
    assert Active(s.procs[q], t);
    DistinctPids(s.procs, p, q);
    var m := MinOtherIsSomebodys(s.st.vr, s.procs, P[p].pid, t, |P|);
    OthersKeep(s.st.vr, s.procs, p, Vruntime(a.vr, P[p].pid));
  }

  /** Placed beside the first process, the second does not displace it. */
  lemma SecondPlaces(P: Table)
    requires Displacement(P)
    ensures Placed(P, 1, 0) == 3 && Placed(P, 1, 1) == 3 && RanAt(P, 1, 0)
  {
    FirstPlaces(P);
    ReadyYet(P, 0, 1);
    PlacedBeside(P, 1, 1, 0);
    LeastRunsOn(P, 0, 0);
  }

  lemma SecondTick(P: Table)
    requires Displacement(P)
    ensures Placed(P, 2, 0) == 6 && Placed(P, 2, 1) == 3
  {
    SecondPlaces(P);
    assert Increment(5) == 3;
    PlacedStep(P, 1, 0);
    PlacedStep(P, 1, 1);
    NotBoth(P, 1, 0, 1);
  }

  lemma NiceIsDispatched(P: Table)
    requires Displacement(P)
    ensures RanAt(P, 2, 1) && Placed(P, 2, 1) == 3
  {
    SecondTick(P);
    ReadyYet(P, 1, 2);
    StrictlyLeastRuns(P, 2, 1);
  }

  lemma NotBoth(P: Table, t: nat, i: nat, j: nat)
    requires Fresh(P) && i < |P| && j < |P| && i != j && RanAt(P, t, i)
    ensures !RanAt(P, t, j)
  {
    DistinctPids(P, i, j);
  }

  /** A process of negative nice, on the CPU and unfinished, is displaced by companions: it was
      placed above 0 on arrival, and stays there. */
  lemma NegativeNiceLosesCpu(P: Table)
    requires Displacement(P)
    ensures P[1].nice < 0 && RanAt(P, 2, 1) && ReadyAt(P, 1, 3) && !RanAt(P, 3, 1)
  {
    NiceIsDispatched(P);
    ReadyYet(P, 1, 3);
    PlacedStep(P, 2, 1);
    PlacedHead(P, 3, 1);
    assert Companions(P, 3) by { assert P[2].arrival == 3 && P[3].arrival == 3; }
    NegativeNiceKeepsCpuIff(P, 2, 1);
  }
}
