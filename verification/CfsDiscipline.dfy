/** CFS serves the least virtual runtime. */
module CfsDiscipline {
  import opened Processes
  import opened Engine
  import opened Timelines
  import opened Selection
  import opened Disciplines
  import opened ScanDisciplines
  import opened Cfs
  import opened CfsFairness

  /** A tick of CPU is charged what its nice value says. */
  lemma ChargeIs(nice: int)
    ensures Increment(nice) == Charge(nice)
  {
  }

  /** The virtual runtime that the code holds for process `i` when tick `t` chooses is the one
      that the timeline tells. */
  ghost predicate Agrees(P: Table, t: nat, i: nat)
    requires i < |P|
  {
    var r := After(CfsScheduler(), P, t);
    r.Some? && Placed(P, t, i) == VirtualRuntime(P, r.value.timeline, P[i])
  }

  lemma VirtualRuntimeNext(P: Table, tl: seq<int>, next: int, p: Process)
    requires p.arrival <= |tl|
    ensures VirtualRuntime(P, tl + [next], p)
         == VirtualRuntime(P, tl, p) + (if next == p.pid then Charge(p.nice) else 0)
  {
    assert (tl + [next])[..|tl|] == tl;
  }

  /** So it is for everybody who arrived before tick `t`. */
  ghost predicate EarlierAgree(P: Table, t: nat) {
    forall j :: 0 <= j < |P| && P[j].arrival < t ==> Agrees(P, t, j)
  }

  lemma AgreesLater(P: Table, t: nat, i: nat)
    requires Indexable(P) && i < |P| && P[i].arrival <= t && Agrees(P, t, i)
    ensures Agrees(P, t + 1, i)
  {
    var s, a, b, s' := OneTick(P, t);
    PlacedStep(P, t, i);
    ChargeIs(P[i].nice);
    VirtualRuntimeNext(P, s.timeline, PidAt(s.procs, b), P[i]);
  }

  /** The code's scan for the place of a lone arrival sees slot `k` as the timeline tells it. */
  ghost predicate SeesSlot(P: Table, tl: seq<int>, ps: Table, vr: seq<int>, pid: int, k: nat)
    requires k < |P| == |ps|
  {
    var ready := P[k].arrival < |tl| && ActiveAt(P, tl, k, |tl|);
    && (ps[k].pid == pid || !Active(ps[k], |tl|) <==> !ready)
    && (ready ==> Vruntime(vr, ps[k].pid) == VirtualRuntime(P, tl, P[k]))
  }

  lemma SlotAgrees(P: Table, t: nat, s: Sim<State>, i: nat, k: nat)
    requires Indexable(P) && i < |P| && P[i].arrival == t && k < |P| && After(CfsScheduler(), P, t) == Some(s)
    requires PlayedTable(P, s.timeline, t, s.procs) && |s.timeline| == t && Lone(P, t, i) && EarlierAgree(P, t)
    ensures SeesSlot(P, s.timeline, s.procs, s.st.vr, P[i].pid, k)
  {
    PlayedActive(P, s.timeline, s.procs);
    PlayedStatic(P[k], s.timeline, t);
    if k != i { DistinctPids(P, k, i); }
    if P[k].arrival < t {
      PlacedHead(P, t, k);
      assert Agrees(P, t, k);
    }
  }

  /** So it finds the least of those ready before. */
  lemma {:induction false} ScanIsLeast(P: Table, tl: seq<int>, ps: Table, vr: seq<int>, pid: int, k: nat)
    requires k <= |P| == |ps| && forall j :: 0 <= j < |P| ==> SeesSlot(P, tl, ps, vr, pid, j)
    ensures MinOther(vr, ps, pid, |tl|, k) == LeastBefore(P, tl, k)
  {
    if k > 0 {
      ScanIsLeast(P, tl, ps, vr, pid, k - 1);
      assert SeesSlot(P, tl, ps, vr, pid, k - 1);
    }
  }

  lemma CompanionIff(P: Table, t: nat, i: nat)
    requires Fresh(P) && i < |P| && P[i].arrival == t
    ensures HasCompanion(P, P[i]) <==> !Lone(P, t, i)
  {
    if HasCompanion(P, P[i]) {
      var j :| 0 <= j < |P| && P[j].pid != P[i].pid && P[j].arrival == t;
    }
    if !Lone(P, t, i) {
      var j :| 0 <= j < |P| && P[j].arrival == t && j != i;
      DistinctPids(P, j, i);
    }
  }

  lemma AgreesOnArrival(P: Table, t: nat, i: nat)
    requires Indexable(P) && i < |P| && P[i].arrival == t && EarlierAgree(P, t)
    ensures Agrees(P, t, i)
  {
    var s, s' := TwoStates(P, t);
    PlayedSame(P, s.timeline, t, s.procs);
    StaysInOrder(P, t);
    CompanionIff(P, t, i);
    if Lone(P, t, i) {
      AdmitLone(s.st, s.procs, t, |P|, i);
      forall j | 0 <= j < |P| ensures SeesSlot(P, s.timeline, s.procs, s.st.vr, P[i].pid, j) {
        SlotAgrees(P, t, s, i, j);
      }
      ScanIsLeast(P, s.timeline, s.procs, s.st.vr, P[i].pid, |P|);
    } else {
      var q :| 0 <= q < |P| && P[q].arrival == t && q != i;
      CompanionsAtZero(s.st, s.procs, t, i, q);
    }
  }

  /** Virtual runtimes are functions of the table and the timeline: a lone arrival starts at the
      least of those ready, companions at 0, and each tick of CPU adds 0, 1, 2 or 3. */
  lemma {:induction false} AgreesAlways(P: Table, t: nat)
    requires Indexable(P)
    ensures forall i :: 0 <= i < |P| && P[i].arrival <= t ==> Agrees(P, t, i)
  {
    if t > 0 { AgreesAlways(P, t - 1); }
    forall i | 0 <= i < |P| && P[i].arrival < t ensures Agrees(P, t, i) { AgreesLater(P, t - 1, i); }
    forall i | 0 <= i < |P| && P[i].arrival == t ensures Agrees(P, t, i) { AgreesOnArrival(P, t, i); }
  }

  /** The memory of the scheduler is the pid of the last tick, if unfinished. */
  lemma RemembersCfs(P: Table, t: nat, s: Sim<State>)
    requires Fresh(P) && After(CfsScheduler(), P, t) == Some(s)
    ensures Remembers(s.st.running, s.procs, s.timeline)
  {
    if t > 0 { RemembersNext(P, t - 1, s); }
  }

  lemma RemembersNext(P: Table, t: nat, s': Sim<State>)
    requires Fresh(P) && After(CfsScheduler(), P, t + 1) == Some(s')
    ensures Remembers(s'.st.running, s'.procs, s'.timeline)
  {
    var s, a, b, r := OneTick(P, t);
    RemembersSlot(s.procs, b, t, s.timeline);
  }

  lemma RemembersSlot(ps: Table, b: int, t: nat, tl: seq<int>)
    requires MidRun(ps, t) && -1 <= b < |ps| && (b >= 0 ==> Active(ps[b], t))
    ensures var next := PidAt(ps, b);
            Remembers(if Finishes(ps, next) then IDLE else next, Execute(ps, next, t), tl + [next])
  {
    if b >= 0 { IndexOfOwn(ps, b); }
    LastUnfinished(ps, PidAt(ps, b), t);
  }

  lemma KeyIsVirtualRuntime(P: Table, t: nat, s: Sim<State>, vr: seq<int>)
    requires Indexable(P) && After(CfsScheduler(), P, t) == Some(s) && PlayedTable(P, s.timeline, t, s.procs)
    requires |s.timeline| == t && vr == Admit(CfsScheduler(), s.st, s.procs, t, |P|).vr
    ensures KeyFirst(CfsRank(), ByVruntime(vr), P, s.procs, s.timeline)
  {
    AgreesAlways(P, t);
    PlayedActive(P, s.timeline, s.procs);
    PlayedSame(P, s.timeline, t, s.procs);
    forall i | 0 <= i < |P| && Active(s.procs[i], t)
      ensures KeyOf(ByVruntime(vr), s.procs[i]) == VirtualRuntime(P, s.timeline, P[i])
    {
      assert Agrees(P, t, i);
    }
  }

  lemma CfsServes(P: Table, t: nat)
    requires Indexable(P) && ObeysFor(CfsScheduler(), P, CfsRank(), t)
    ensures ObeysFor(CfsScheduler(), P, CfsRank(), t + 1)
  {
    var s, s' := TwoStates(P, t);
    var a, b := TickPicks(s, t);
    RemembersCfs(P, t, s);
    KeyIsVirtualRuntime(P, t, s, a.vr);
    ReselectServes(CfsRank(), ByVruntime(a.vr), P, s.timeline, s.procs, a.running);
    ObeysNext(CfsScheduler(), P, CfsRank(), t);
  }

  /** CFS: on every tick of every run the CPU goes to an active process of least virtual runtime:
      to the one that ran last if it is such a one, and otherwise to the first in the table. */
  lemma CfsObeys(P: Table)
    requires Indexable(P)
    ensures Obeys(CfsScheduler(), P, CfsRank())
  {
    forall t: nat ensures ObeysFor(CfsScheduler(), P, CfsRank(), t) { CfsObeysFor(P, t); }
  }

  lemma {:induction false} CfsObeysFor(P: Table, t: nat)
    requires Indexable(P)
    ensures ObeysFor(CfsScheduler(), P, CfsRank(), t)
  {
    if t > 0 {
      CfsObeysFor(P, t - 1);
      CfsServes(P, t - 1);
    }
  }

  // ---------- Shares, in numbers ----------

  lemma Weighed(d: int, n: nat)
    ensures d == 1 ==> d * n == n
    ensures d == 2 ==> d * n == 2 * n
    ensures d == 3 ==> d * n == 3 * n
  {
  }

  /** When companions find nobody ready, two processes get CPU one to one at any nice values from
      0 to 3, two to one between those and 4, three to one between those and 5, and three to two
      between 4 and 5, to within twice the largest charge in the table, which is at most 3. */
  lemma SharesInNumbers(P: Table, i: nat, j: nat, a: nat, b: nat)
    requires Indexable(P) && CompanionsFindNobody(P) && i < |P| && j < |P| && a <= b
    requires P[i].arrival <= a && P[j].arrival <= a && ReadyAt(P, i, b) && ReadyAt(P, j, b)
    ensures var x, y, d := Share(P, i, a, b), Share(P, j, a, b), 2 * MaxIncrement(P, |P|);
            && d <= 6
            && (0 <= P[i].nice <= 3 && 0 <= P[j].nice <= 3 ==> Distance(x, y) <= d)
            && (0 <= P[i].nice <= 3 && P[j].nice == 4 ==> Distance(x, 2 * y) <= d)
            && (0 <= P[i].nice <= 3 && P[j].nice == 5 ==> Distance(x, 3 * y) <= d)
            && (P[i].nice == 4 && P[j].nice == 5 ==> Distance(2 * x, 3 * y) <= d)
  {
    FairShares(P, i, j, a, b);
    Weighed(Increment(P[i].nice), Share(P, i, a, b));
    Weighed(Increment(P[j].nice), Share(P, j, a, b));
  }

  // ---------- Nice values that cannot be told apart ----------

  /** The same table but for nice values, which charge the same: both negative, both from 0 to 3,
      or equal. */
  ghost predicate Alike(P: Table, Q: Table) {
    && |P| == |Q|
    && forall i :: 0 <= i < |P| ==>
         && Q[i] == P[i].(nice := Q[i].nice)
         && ((P[i].nice < 0 && Q[i].nice < 0) || (0 <= P[i].nice <= 3 && 0 <= Q[i].nice <= 3) || P[i].nice == Q[i].nice)
  }

  lemma {:induction false} PlayedAlike(p: Process, nice: int, tl: seq<int>, t: nat)
    requires t <= |tl|
    ensures Played(p.(nice := nice), tl, t) == Played(p, tl, t).(nice := nice)
  {
    if t > 0 { PlayedAlike(p, nice, tl, t - 1); }
  }

  lemma ActiveAlike(P: Table, Q: Table, tl: seq<int>, i: nat, t: nat)
    requires Alike(P, Q) && i < |P| && t <= |tl|
    ensures ActiveAt(P, tl, i, t) <==> ActiveAt(Q, tl, i, t)
  {
    PlayedAlike(P[i], Q[i].nice, tl, t);
  }

  lemma CompanionAlike(P: Table, Q: Table, i: nat)
    requires Alike(P, Q) && i < |P|
    ensures HasCompanion(P, P[i]) <==> HasCompanion(Q, Q[i])
  {
    if HasCompanion(P, P[i]) {
      var j :| 0 <= j < |P| && P[j].pid != P[i].pid && P[j].arrival == P[i].arrival;
      assert Q[j].pid != Q[i].pid;
    }
    if HasCompanion(Q, Q[i]) {
      var j :| 0 <= j < |Q| && Q[j].pid != Q[i].pid && Q[j].arrival == Q[i].arrival;
      assert P[j].pid != P[i].pid;
    }
  }

  lemma {:induction false} LeastAlike(P: Table, Q: Table, tl: seq<int>, k: nat)
    requires Alike(P, Q) && k <= |P|
    ensures LeastBefore(P, tl, k) == LeastBefore(Q, tl, k)
    decreases |tl|, 1, k
  {
    if k > 0 {
      LeastAlike(P, Q, tl, k - 1);
      ActiveAlike(P, Q, tl, k - 1, |tl|);
      if P[k - 1].arrival < |tl| { RuntimeAlike(P, Q, tl, k - 1); }
    }
  }

  lemma {:induction false} RuntimeAlike(P: Table, Q: Table, tl: seq<int>, i: nat)
    requires Alike(P, Q) && i < |P|
    ensures VirtualRuntime(P, tl, P[i]) == VirtualRuntime(Q, tl, Q[i])
    decreases |tl|, if P[i].arrival < |tl| then 0 else 2, 0
  {
    var t := |tl|;
    if P[i].arrival == t {
      LeastAlike(P, Q, tl, |P|);
      CompanionAlike(P, Q, i);
    } else if P[i].arrival < t && t > 0 {
      RuntimeAlike(P, Q, tl[..t - 1], i);
    }
  }

  lemma ForemostAlike(P: Table, Q: Table, tl: seq<int>, i: nat)
    requires Alike(P, Q) && i < |P|
    ensures Foremost(CfsRank(), P, tl, i) <==> Foremost(CfsRank(), Q, tl, i)
  {
    forall j | 0 <= j < |P|
      ensures ActiveAt(P, tl, j, |tl|) <==> ActiveAt(Q, tl, j, |tl|)
      ensures CfsRank()(P, tl, P[j]) == CfsRank()(Q, tl, Q[j])
    {
      ActiveAlike(P, Q, tl, j, |tl|);
      RuntimeAlike(P, Q, tl, j);
    }
  }

  lemma ServesAlike(P: Table, Q: Table, tl: seq<int>, next: int)
    requires Alike(P, Q)
    ensures Serves(CfsRank(), P, tl, next) <==> Serves(CfsRank(), Q, tl, next)
  {
    SameIndex(P, Q, next);
    forall j | 0 <= j < |P| ensures ActiveAt(P, tl, j, |tl|) <==> ActiveAt(Q, tl, j, |tl|) {
      ActiveAlike(P, Q, tl, j, |tl|);
    }
    if IndexOf(P, next) >= 0 { ForemostAlike(P, Q, tl, IndexOf(P, next)); }
  }

  /** CFS does not tell nice values from 0 to 3 apart, nor negative ones: changing them to others of
      their kind changes no tick of any run. */
  lemma NiceKinds(P: Table, Q: Table, t: nat)
    requires Indexable(P) && Indexable(Q) && Alike(P, Q)
    ensures After(CfsScheduler(), P, t).Some? && After(CfsScheduler(), Q, t).Some?
    ensures After(CfsScheduler(), P, t).value.timeline == After(CfsScheduler(), Q, t).value.timeline
  {
    CfsObeysFor(P, t);
    CfsObeysFor(Q, t);
    var a, b := After(CfsScheduler(), P, t).value.timeline, After(CfsScheduler(), Q, t).value.timeline;
    forall u | 0 <= u < t
      ensures ServesAt(CfsRank(), Q, a, u)
    {
      assert ServesAt(CfsRank(), P, a, u);
      ServesAlike(P, Q, a[..u], a[u]);
    }
    OneTimeline(CfsRank(), Q, a, b);
  }
}
