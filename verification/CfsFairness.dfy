/** Virtual runtimes stay within one increment exactly while nobody is placed too low.

    Shares of the CPU are then in proportion, to within twice that increment. */
module CfsFairness {
  import opened Processes
  import opened Engine
  import opened Timelines
  import opened WorkConservation
  import opened Selection
  import opened Cfs

  // All ready processes stay within one largest increment of each other for as long as no two
  // processes arrive together below somebody further than that from 0, and no longer.

  /** Processes arrive together only when nothing is left of what arrived before: readable
      from the table, as it depends on arrivals and bursts alone. */
  ghost predicate CompanionsFindNobody(P: Table) {
    forall i, j :: 0 <= i < j < |P| && P[i].arrival == P[j].arrival && P[i].arrival >= 0 ==> NoBacklog(P, P[i].arrival)
  }

  /** In particular, any number may arrive at tick 0 when later arrivals come one at a time. */
  lemma SingleArrivals(P: Table)
    requires Fresh(P) && forall i, j :: 0 <= i < j < |P| && P[i].arrival == P[j].arrival ==> P[i].arrival == 0
    ensures CompanionsFindNobody(P)
  {
    assert Arrived(P, -1) == 0;
  }

  /** The largest increment in the table. */
  function MaxIncrement(P: Table, k: nat): (d: int)
    requires k <= |P|
    ensures 0 <= d <= 3
    ensures forall i :: 0 <= i < k ==> Increment(P[i].nice) <= d
  {
    if k == 0 then 0
    else
      var d, e := MaxIncrement(P, k - 1), Increment(P[k - 1].nice);
      if e > d then e else d
  }

  /** Virtual runtimes are not negative, and 0 until their process arrives at `tick` or later. */
  ghost predicate VrOk(vr: seq<int>, ps: Table, tick: int) {
    && |vr| == MAX_PROCESSES + 1
    && forall i :: 0 <= i < |ps| ==>
         && ps[i].pid <= MAX_PROCESSES && 0 <= Vruntime(vr, ps[i].pid)
         && (ps[i].arrival >= tick ==> Vruntime(vr, ps[i].pid) == 0)
  }

  /** Any two processes active at `tick` are within `d`. */
  ghost predicate Spread(vr: seq<int>, ps: Table, tick: int, d: int) {
    forall i, j :: 0 <= i < |ps| && 0 <= j < |ps| && Active(ps[i], tick) && Active(ps[j], tick) ==>
      Vruntime(vr, ps[i].pid) <= Vruntime(vr, ps[j].pid) + d
  }

  // ---------- Admission ----------

  /** A lone arrival is placed once, whatever its position in the table. */
  lemma {:induction false} AdmitLone(s: State, ps: Table, tick: int, k: nat, p: nat)
    requires k <= |ps| && p < |ps| && forall i :: 0 <= i < k && ps[i].arrival == tick ==> i == p
    ensures Admit(CfsScheduler(), s, ps, tick, k)
         == if p < k && ps[p].arrival == tick then OnArrival(s, ps, ps[p], tick) else s
  {
    if k > 0 { AdmitLone(s, ps, tick, k - 1, p); }
  }

  /** Somebody else is active with a virtual runtime of 0. */
  ghost predicate HasZeroPeer(vr: seq<int>, ps: Table, tick: int, i: nat) {
    exists j :: 0 <= j < |ps| && j != i && Active(ps[j], tick) && Vruntime(vr, ps[j].pid) == 0
  }

  /** An arrival beside somebody at 0 is placed at 0. */
  lemma {:induction false} AdmitAtZero(s: State, ps: Table, tick: int, k: nat)
    requires MidRun(ps, tick) && VrOk(s.vr, ps, tick) && k <= |ps|
    requires forall i :: 0 <= i < |ps| && ps[i].arrival == tick ==> HasZeroPeer(s.vr, ps, tick, i)
    ensures Admit(CfsScheduler(), s, ps, tick, k) == s
  {
    if k > 0 {
      AdmitAtZero(s, ps, tick, k - 1);
      if ps[k - 1].arrival == tick {
        assert HasZeroPeer(s.vr, ps, tick, k - 1);
        var j :| 0 <= j < |ps| && j != k - 1 && Active(ps[j], tick) && Vruntime(s.vr, ps[j].pid) == 0;
        DistinctPids(ps, j, k - 1);
        var m := MinOtherIsSomebodys(s.vr, ps, ps[k - 1].pid, tick, |ps|);
        assert MinOther(s.vr, ps, ps[k - 1].pid, tick, |ps|) == Some(0);
      }
    }
  }

  lemma DistinctPids(ps: Table, i: nat, j: nat)
    requires Sorted(ps) && i < |ps| && j < |ps| && i != j
    ensures ps[i].pid != ps[j].pid
  {
    IndexOfOwn(ps, i);
    IndexOfOwn(ps, j);
  }

  /** Where the documentation puts an arrival: at the least virtual runtime of those ready
      before this tick, or at 0 when there are none. */
  function Documented(s: State, ps: Table, tick: int, p: nat): int
    requires p < |ps|
  {
    var min := MinOther(s.vr, ps, ps[p].pid, tick - 1, |ps|);
    if min.Some? then min.value else 0
  }

  ghost predicate Lone(ps: Table, tick: int, p: nat) {
    forall i :: 0 <= i < |ps| && ps[i].arrival == tick ==> i == p
  }

  lemma {:induction false} LoneMin(vr: seq<int>, ps: Table, tick: int, p: nat, k: nat)
    requires MidRun(ps, tick) && p < |ps| && Lone(ps, tick, p) && k <= |ps|
    ensures MinOther(vr, ps, ps[p].pid, tick, k) == MinOther(vr, ps, ps[p].pid, tick - 1, k)
  {
    if k > 0 {
      LoneMin(vr, ps, tick, p, k - 1);
      assert ps[k - 1].pid == ps[p].pid || Active(ps[k - 1], tick) == Active(ps[k - 1], tick - 1);
    }
  }

  /** Companions arriving on one tick are all placed at 0: each sees another that has not
      been placed yet, or has been placed at 0. */
  lemma CompanionsAtZero(s: State, ps: Table, tick: int, p: nat, q: nat)
    requires MidRun(ps, tick) && VrOk(s.vr, ps, tick)
    requires p < |ps| && q < |ps| && p != q && ps[p].arrival == tick && ps[q].arrival == tick
    ensures Admit(CfsScheduler(), s, ps, tick, |ps|) == s
  {
    forall i | 0 <= i < |ps| && ps[i].arrival == tick
      ensures HasZeroPeer(s.vr, ps, tick, i)
    {
      var j := if i == p then q else p;
      assert Active(ps[j], tick) && Vruntime(s.vr, ps[j].pid) == 0;
    }
    AdmitAtZero(s, ps, tick, |ps|);
  }

  /** An arrival is placed as documented exactly when it arrives alone, or the documented
      place is 0 anyway. */
  lemma PlacedAsDocumentedIff(s: State, ps: Table, tick: int, p: nat)
    requires MidRun(ps, tick) && VrOk(s.vr, ps, tick) && p < |ps| && ps[p].arrival == tick
    ensures Vruntime(Admit(CfsScheduler(), s, ps, tick, |ps|).vr, ps[p].pid) == Documented(s, ps, tick, p)
       <==> Lone(ps, tick, p) || Documented(s, ps, tick, p) == 0
  {
    if Lone(ps, tick, p) {
      AdmitLone(s, ps, tick, |ps|, p);
      LoneMin(s.vr, ps, tick, p, |ps|);
    } else {
      var q :| 0 <= q < |ps| && ps[q].arrival == tick && q != p;
      CompanionsAtZero(s, ps, tick, p, q);
    }
  }

  // ---------- The spread over a run ----------

  /** A lone arrival joins within the spread. */
  lemma LoneSpread(s: State, ps: Table, tick: int, d: nat, p: nat)
    requires MidRun(ps, tick) && VrOk(s.vr, ps, tick) && Spread(s.vr, ps, tick - 1, d)
    requires p < |ps| && Lone(ps, tick, p)
    ensures var a := Admit(CfsScheduler(), s, ps, tick, |ps|);
            VrOk(a.vr, ps, tick + 1) && Spread(a.vr, ps, tick, d)
  {
    AdmitLone(s, ps, tick, |ps|, p);
    if ps[p].arrival == tick {
      if MinOther(s.vr, ps, ps[p].pid, tick, |ps|).Some? {
        var m := MinOtherIsSomebodys(s.vr, ps, ps[p].pid, tick, |ps|);
      }
      OthersKeep(s.vr, ps, p, Vruntime(OnArrival(s, ps, ps[p], tick).vr, ps[p].pid));
    }
  }

  lemma OthersKeep(vr: seq<int>, ps: Table, p: nat, v: int)
    requires Sorted(ps) && p < |ps|
    ensures forall i :: 0 <= i < |ps| && i != p ==>
              Vruntime(SetVruntime(vr, ps[p].pid, v), ps[i].pid) == Vruntime(vr, ps[i].pid)
  {
    forall i | 0 <= i < |ps| && i != p ensures ps[i].pid != ps[p].pid { DistinctPids(ps, i, p); }
  }

  /** Running a process with the least virtual runtime, by at most `d`, keeps the spread. */
  lemma RunSpread(vr: seq<int>, ps: Table, tick: nat, b: nat, d: nat)
    requires MidRun(ps, tick) && VrOk(vr, ps, tick + 1) && Spread(vr, ps, tick, d)
    requires b < |ps| && Active(ps[b], tick) && Increment(ps[b].nice) <= d
    requires forall i :: 0 <= i < |ps| && Active(ps[i], tick) ==> Vruntime(vr, ps[b].pid) <= Vruntime(vr, ps[i].pid)
    ensures var vr', after := Charged(vr, ps, b), Execute(ps, ps[b].pid, tick);
            VrOk(vr', after, tick + 1) && Spread(vr', after, tick, d)
  {
    OthersKeep(vr, ps, b, Vruntime(vr, ps[b].pid) + Increment(ps[b].nice));
    IndexOfOwn(ps, b);
  }

  /** The invariant of a CFS run: virtual runtimes in order and within `d` as tick `t` begins. */
  ghost predicate FairAt(P: Table, t: nat, d: int) {
    var r := After(CfsScheduler(), P, t);
    r.Some? && VrOk(r.value.st.vr, r.value.procs, t) && Spread(r.value.st.vr, r.value.procs, t - 1, d)
  }

  /** Where two or more arrive together the spread survives exactly when everybody ready is
      still within it of 0, where the arrivals are placed. */
  lemma CompanionsSpreadIff(s: State, ps: Table, tick: int, p: nat, q: nat, d: nat)
    requires MidRun(ps, tick) && VrOk(s.vr, ps, tick) && Spread(s.vr, ps, tick - 1, d)
    requires p < |ps| && q < |ps| && p != q && ps[p].arrival == tick && ps[q].arrival == tick
    ensures Spread(Admit(CfsScheduler(), s, ps, tick, |ps|).vr, ps, tick, d)
       <==> forall j :: 0 <= j < |ps| && Active(ps[j], tick - 1) ==> Vruntime(s.vr, ps[j].pid) <= d
  {
    CompanionsAtZero(s, ps, tick, p, q);
    assert Active(ps[p], tick) && Vruntime(s.vr, ps[p].pid) == 0;
    forall j | 0 <= j < |ps| && Active(ps[j], tick - 1) ensures Active(ps[j], tick) {}
  }

  /** Two processes or more arrive together at `tick`. */
  ghost predicate Companions(ps: Table, tick: int) {
    exists p, q :: 0 <= p < q < |ps| && ps[p].arrival == tick && ps[q].arrival == tick
  }

  /** Nobody ready is more than `d` from 0, where the arrivals are placed, if two or more
      arrive together at `tick`. */
  ghost predicate RoomAtZero(vr: seq<int>, ps: Table, tick: int, d: int) {
    Companions(ps, tick) ==>
      forall j :: 0 <= j < |ps| && Active(ps[j], tick - 1) ==> Vruntime(vr, ps[j].pid) <= d
  }

  /** Admission keeps the spread exactly when nobody is placed too far below the others. */
  lemma AdmitSpreadIff(s: State, ps: Table, tick: int, d: nat)
    requires MidRun(ps, tick) && VrOk(s.vr, ps, tick) && Spread(s.vr, ps, tick - 1, d)
    ensures var a := Admit(CfsScheduler(), s, ps, tick, |ps|);
            VrOk(a.vr, ps, tick + 1) && (Spread(a.vr, ps, tick, d) <==> RoomAtZero(s.vr, ps, tick, d))
  {
    if Companions(ps, tick) {
      var p, q :| 0 <= p < q < |ps| && ps[p].arrival == tick && ps[q].arrival == tick;
      CompanionsAtZero(s, ps, tick, p, q);
      CompanionsSpreadIff(s, ps, tick, p, q, d);
    } else if p :| 0 <= p < |ps| && ps[p].arrival == tick {
      LoneSpread(s, ps, tick, d, p);
    } else if |ps| > 0 {
      LoneSpread(s, ps, tick, d, 0);
    }
  }

  lemma PickFair(ps: Table, vr: seq<int>, b: int, t: nat, d: nat)
    requires MidRun(ps, t) && VrOk(vr, ps, t + 1) && Spread(vr, ps, t, d) && -1 <= b < |ps|
    requires b >= 0 ==> Active(ps[b], t) && Increment(ps[b].nice) <= d
    requires b >= 0 ==> forall i :: 0 <= i < |ps| && Active(ps[i], t) ==>
             Vruntime(vr, ps[b].pid) <= Vruntime(vr, ps[i].pid)
    ensures var vr', after := Charged(vr, ps, b), Execute(ps, PidAt(ps, b), t);
            VrOk(vr', after, t + 1) && Spread(vr', after, t, d)
  {
    if b >= 0 { RunSpread(vr, ps, t, b, d); }
  }

  lemma LeastKey(vr: seq<int>, ps: Table, t: int, b: nat, running: int)
    requires b == Contend(ps, t, ByVruntime(vr), running)
    ensures forall i :: 0 <= i < |ps| && Active(ps[i], t) ==> Vruntime(vr, ps[b].pid) <= Vruntime(vr, ps[i].pid)
  {
    forall i | 0 <= i < |ps| && Active(ps[i], t) ensures Vruntime(vr, ps[b].pid) <= Vruntime(vr, ps[i].pid) {
      assert KeyOf(ByVruntime(vr), ps[b]) <= KeyOf(ByVruntime(vr), ps[i]);
    }
  }

  lemma FairNext(P: Table, t: nat, d: int, s: Sim<State>)
    requires After(CfsScheduler(), P, t + 1) == Some(s) && VrOk(s.st.vr, s.procs, t + 1)
             && Spread(s.st.vr, s.procs, t, d)
    ensures FairAt(P, t + 1, d)
  {
  }

  /** With companions at 0 and somebody ready beyond `d`, one tick does not close the gap:
      at least one companion is still at 0 afterwards. */
  lemma PickUnfair(vr: seq<int>, ps: Table, b: nat, t: nat, d: nat, p: nat, q: nat, j: nat)
    requires MidRun(ps, t) && VrOk(vr, ps, t) && b < |ps| && p < q < |ps| && j < |ps|
    requires ps[p].arrival == t && ps[q].arrival == t && Active(ps[j], t - 1) && Vruntime(vr, ps[j].pid) > d
    requires forall i :: 0 <= i < |ps| && Active(ps[i], t) ==> Vruntime(vr, ps[b].pid) <= Vruntime(vr, ps[i].pid)
    ensures !Spread(Charged(vr, ps, b), Execute(ps, ps[b].pid, t), t, d)
  {
    var z := if b == p then q else p;
    var after := Execute(ps, ps[b].pid, t);
    IndexOfOwn(ps, b);
    assert Active(ps[p], t) && Vruntime(vr, ps[p].pid) == 0;
    OthersKeep(vr, ps, b, Vruntime(vr, ps[b].pid) + Increment(ps[b].nice));
    assert Active(after[z], t) && Active(after[j], t);
  }

  /** Whoever arrives with companions as tick `t` begins finds nobody ready beyond `d`. */
  ghost predicate LevelAt(P: Table, t: nat, d: int) {
    var r := After(CfsScheduler(), P, t);
    r.Some? && RoomAtZero(r.value.st.vr, r.value.procs, t, d)
  }

  lemma {:induction false} FairStep(P: Table, t: nat, d: nat)
    requires Fresh(P) && FairAt(P, t, d) && LevelAt(P, t, d) && d == MaxIncrement(P, |P|)
    ensures FairAt(P, t + 1, d)
  {
    var s, a, b, s' := OneTick(P, t);
    PlayedSame(P, s.timeline, t, s.procs);
    AdmitSpreadIff(s.st, s.procs, t, d);
    if b >= 0 {
      LeastKey(a.vr, s.procs, t, b, a.running);
      assert Increment(P[b].nice) <= d;
    }
    PickFair(s.procs, a.vr, b, t, d);
    FairNext(P, t, d, s');
  }

  lemma UnfairTick(st: State, ps: Table, b: int, t: nat, d: nat)
    requires MidRun(ps, t) && VrOk(st.vr, ps, t) && !RoomAtZero(st.vr, ps, t, d)
    requires var a := Admit(CfsScheduler(), st, ps, t, |ps|); b == Contend(ps, t, ByVruntime(a.vr), a.running)
    ensures var a := Admit(CfsScheduler(), st, ps, t, |ps|);
            !Spread(Charged(a.vr, ps, b), Execute(ps, PidAt(ps, b), t), t, d)
  {
    var p, q :| 0 <= p < q < |ps| && ps[p].arrival == t && ps[q].arrival == t;
    var j :| 0 <= j < |ps| && Active(ps[j], t - 1) && Vruntime(st.vr, ps[j].pid) > d;
    CompanionsAtZero(st, ps, t, p, q);
    assert Active(ps[p], t);
    LeastKey(st.vr, ps, t, b, st.running);
    PickUnfair(st.vr, ps, b, t, d, p, q, j);
  }

  lemma UnfairStep(P: Table, t: nat, d: nat)
    requires Fresh(P) && FairAt(P, t, d) && !LevelAt(P, t, d)
    ensures !FairAt(P, t + 1, d)
  {
    var s, a, b, s' := OneTick(P, t);
    UnfairTick(s.st, s.procs, b, t, d);
  }

  lemma {:induction false} FairNextIff(P: Table, t: nat, next: nat, d: nat)
    requires Fresh(P) && FairAt(P, t, d) && d == MaxIncrement(P, |P|) && next == t + 1
    ensures FairAt(P, next, d) <==> LevelAt(P, t, d)
  {
    if LevelAt(P, t, d) { FairStep(P, t, d); } else { UnfairStep(P, t, d); }
  }

  ghost predicate Throughout(f: nat -> bool, t: int) {
    forall u: nat :: u <= t ==> f(u)
  }

  ghost function FairF(P: Table, d: int): nat -> bool { (t: nat) => FairAt(P, t, d) }

  ghost function LevelF(P: Table, d: int): nat -> bool { (t: nat) => LevelAt(P, t, d) }

  /** A property that survives a step exactly when a guard holds fails first where the guard
      does. */
  lemma {:induction false} FirstFailure(f: nat -> bool, g: nat -> bool, t: nat)
    requires f(0) && forall u: nat {:trigger g(u)} :: u < t && f(u) ==> (f(u + 1) <==> g(u))
    ensures Throughout(f, t) <==> Throughout(g, t - 1)
  {
    if t > 0 {
      FirstFailure(f, g, t - 1);
      assert f(t - 1) ==> (f(t - 1 + 1) <==> g(t - 1));
    }
  }

  lemma {:induction false} FairNextF(P: Table, t: nat, d: nat, f: nat -> bool, g: nat -> bool)
    requires Fresh(P) && d == MaxIncrement(P, |P|) && f == FairF(P, d) && g == LevelF(P, d) && f(t)
    ensures f(t + 1) <==> g(t)
  {
    FairNextIff(P, t, t + 1, d);
  }

  /** All ready processes stay within the largest increment in the table up to tick `t`
      exactly when no companions ever arrive below somebody further than that from 0. */
  lemma {:induction false} StaysFairIff(P: Table, t: nat)
    requires Indexable(P)
    ensures var d := MaxIncrement(P, |P|); Throughout(FairF(P, d), t) <==> Throughout(LevelF(P, d), t - 1)
  {
    var d := MaxIncrement(P, |P|);
    var f, g := FairF(P, d), LevelF(P, d);
    FairAtStart(P, d);
    forall u: nat | u < t && f(u) ensures f(u + 1) <==> g(u) { FairNextF(P, u, d, f, g); }
    FirstFailure(f, g, t);
  }

  lemma FairAtStart(P: Table, d: nat)
    requires Indexable(P)
    ensures FairAt(P, 0, d)
  {
  }

  /** Companions that find nobody ready are not placed too low. */
  lemma CompanionsAreLevel(P: Table, t: nat)
    requires Indexable(P) && CompanionsFindNobody(P)
    ensures LevelAt(P, t, MaxIncrement(P, |P|))
  {
    var s := StateAt(P, t);
    Lawful(P, t, s);
    PlayedSame(P, s.timeline, t, s.procs);
    SameCompanions(P, s.procs, t);
    if Companions(P, t) { NobodyReady(P, t, s); }
  }

  /** Where companions may arrive nobody is ready. */
  lemma NobodyReady(P: Table, t: nat, s: Sim<State>)
    requires Fresh(P) && CompanionsFindNobody(P) && Companions(P, t) && After(CfsScheduler(), P, t) == Some(s)
    requires SameProcesses(P, s.procs) && PlayedTable(P, s.timeline, t, s.procs)
    ensures forall j :: 0 <= j < |P| ==> !Active(s.procs[j], t - 1)
  {
    NeverFails(P);
    assert HoldsAt(CfsScheduler(), P, InvF(), t);
    Lawful(P, t, s);
    NobodyLeft(P, s.timeline, t);
  }

  /** When companions find nobody ready, at every tick all ready processes are within the
      largest increment in the table. */
  lemma StaysFair(P: Table, t: nat)
    requires Indexable(P) && CompanionsFindNobody(P)
    ensures FairAt(P, t, MaxIncrement(P, |P|))
  {
    var d := MaxIncrement(P, |P|);
    LevelThroughout(P, t - 1);
    StaysFairIff(P, t);
    assert FairF(P, d)(t);
  }

  lemma LevelThroughout(P: Table, t: int)
    requires Indexable(P) && CompanionsFindNobody(P)
    ensures Throughout(LevelF(P, MaxIncrement(P, |P|)), t)
  {
    var g := LevelF(P, MaxIncrement(P, |P|));
    forall u: nat | u <= t ensures g(u) { CompanionsAreLevel(P, u); }
  }

  // ---------- Shares ----------

  /** The virtual runtime of process `i` once tick `t` has admitted its arrivals. */
  ghost function Placed(P: Table, t: nat, i: nat): int
    requires i < |P|
  {
    var r := After(CfsScheduler(), P, t);
    if r.None? then 0
    else Vruntime(Admit(CfsScheduler(), r.value.st, r.value.procs, t, |r.value.procs|).vr, P[i].pid)
  }

  /** Admission places the arrivals and nobody else. */
  lemma {:induction false} AdmitOnlyArrivals(s: State, ps: Table, tick: int, k: nat, i: nat)
    requires Sorted(ps) && k <= |ps| && i < |ps| && ps[i].arrival != tick
    ensures Vruntime(Admit(CfsScheduler(), s, ps, tick, k).vr, ps[i].pid) == Vruntime(s.vr, ps[i].pid)
  {
    if k > 0 {
      AdmitOnlyArrivals(s, ps, tick, k - 1, i);
      if ps[k - 1].arrival == tick { DistinctPids(ps, i, k - 1); }
    }
  }

  lemma ChargedIs(vr: seq<int>, ps: Table, b: int, i: nat)
    requires Sorted(ps) && i < |ps| && -1 <= b < |ps| && |vr| == MAX_PROCESSES + 1 && 0 <= ps[i].pid <= MAX_PROCESSES
    ensures Vruntime(Charged(vr, ps, b), ps[i].pid)
            == Vruntime(vr, ps[i].pid) + (if b == i then Increment(ps[i].nice) else 0)
  {
    if b >= 0 && b != i { DistinctPids(ps, i, b); }
  }

  /** After its own arrival a process's virtual runtime is not touched by admission. */
  lemma PlacedHead(P: Table, t: nat, i: nat)
    requires Fresh(P) && i < |P| && P[i].arrival < t && After(CfsScheduler(), P, t).Some?
    ensures Placed(P, t, i) == Vruntime(After(CfsScheduler(), P, t).value.st.vr, P[i].pid)
  {
    Ledger(CfsScheduler(), P, t);
    var s := After(CfsScheduler(), P, t).value;
    PlayedSame(P, s.timeline, t, s.procs);
    MidRunSorted(P, s.procs);
    AdmitOnlyArrivals(s.st, s.procs, t, |P|, i);
  }

  lemma MidRunSorted(P: Table, ps: Table)
    requires Sorted(P) && |ps| == |P|
    requires forall i :: 0 <= i < |P| ==> ps[i].pid == P[i].pid && ps[i].arrival == P[i].arrival
    ensures Sorted(ps)
  {
    forall i, j | 0 <= i < j < |ps|
      ensures Before(ps[i], ps[j]) && ps[i].pid != ps[j].pid
    {
      assert Before(P[i], P[j]);
    }
  }

  /** Did process `i` run at tick `t`? */
  ghost predicate RanAt(P: Table, t: nat, i: nat)
    requires i < |P|
  {
    var r := After(CfsScheduler(), P, t + 1);
    r.Some? && r.value.timeline[t] == P[i].pid
  }

  lemma PlacedStep(P: Table, t: nat, i: nat)
    requires Indexable(P) && i < |P| && P[i].arrival <= t
    ensures Placed(P, t + 1, i) == Placed(P, t, i) + (if RanAt(P, t, i) then Increment(P[i].nice) else 0)
  {
    var s, a, b, s' := OneTick(P, t);
    PlacedHead(P, t + 1, i);
    PlayedSame(P, s.timeline, t, s.procs);
    VrLength(P, t);
    ChargedIs(a.vr, s.procs, b, i);
    if b >= 0 && b != i { DistinctPids(s.procs, i, b); }
  }

  lemma {:induction false} VrLength(P: Table, t: nat)
    requires Fresh(P)
    ensures After(CfsScheduler(), P, t).Some? && |After(CfsScheduler(), P, t).value.st.vr| == MAX_PROCESSES + 1
  {
    if t > 0 {
      VrLength(P, t - 1);
      var r, a, b, s := OneTick(P, t - 1);
    }
  }

  /** How often `f` holds from `a` up to, not including, `b`. */
  ghost function Count(f: nat -> bool, a: nat, b: nat): (c: nat)
    ensures c <= b
  {
    if b <= a then 0 else Count(f, a, b - 1) + (if f(b - 1) then 1 else 0)
  }

  ghost function RanF(P: Table, i: nat): nat -> bool
    requires i < |P|
  {
    (t: nat) => RanAt(P, t, i)
  }

  /** The ticks process `i` ran from tick `a` up to, not including, tick `b`. */
  ghost function Share(P: Table, i: nat, a: nat, b: nat): nat
    requires i < |P|
  {
    Count(RanF(P, i), a, b)
  }

  ghost function PlacedF(P: Table, i: nat): nat -> int
    requires i < |P|
  {
    (t: nat) => Placed(P, t, i)
  }

  /** What grows by `d` on the ticks counted, and on no other, grows by `d` times the count. */
  lemma {:induction false} GrowsByCount(f: nat -> int, ran: nat -> bool, d: int, a: nat, b: nat)
    requires a <= b && forall t: nat {:trigger ran(t)} :: a <= t < b ==> f(t + 1) == f(t) + (if ran(t) then d else 0)
    ensures f(b) == f(a) + d * Count(ran, a, b)
  {
    if a < b {
      GrowsByCount(f, ran, d, a, b - 1);
      assert f(b - 1 + 1) == f(b - 1) + (if ran(b - 1) then d else 0);
      TimesStep(d, Count(ran, a, b - 1));
    }
  }

  lemma TimesStep(d: int, n: int)
    ensures d * (n + 1) == d * n + d
  {
  }

  lemma LedgerStep(P: Table, i: nat, t: nat, d: int, f: nat -> int, ran: nat -> bool)
    requires Indexable(P) && i < |P| && P[i].arrival <= t && d == Increment(P[i].nice)
    requires f == PlacedF(P, i) && ran == RanF(P, i)
    ensures f(t + 1) == f(t) + (if ran(t) then d else 0)
  {
    PlacedStep(P, t, i);
  }

  /** A virtual runtime grows by one increment per tick of CPU, and by nothing else. */
  lemma PlacedLedger(P: Table, i: nat, a: nat, b: nat, d: int)
    requires Indexable(P) && i < |P| && P[i].arrival <= a <= b && d == Increment(P[i].nice)
    ensures Placed(P, b, i) == Placed(P, a, i) + d * Share(P, i, a, b)
  {
    var f, ran := PlacedF(P, i), RanF(P, i);
    forall t: nat | a <= t < b
      ensures f(t + 1) == f(t) + (if ran(t) then d else 0)
    {
      LedgerStep(P, i, t, d, f, ran);
    }
    GrowsByCount(f, ran, d, a, b);
  }

  function Distance(a: int, b: int): int { if a <= b then b - a else a - b }

  /** Process `i` is arrived and unfinished as tick `t` of the CFS run begins. */
  ghost predicate ReadyAt(P: Table, i: nat, t: nat)
    requires i < |P|
  {
    var r := After(CfsScheduler(), P, t);
    r.Some? && ActiveAt(P, r.value.timeline, i, t)
  }

  /** Two processes both ready from tick `a` to tick `b` get CPU in inverse proportion to
      their increments, to within twice the largest increment, if nobody is placed too low
      on the way. */
  lemma SharesWhenLevel(P: Table, i: nat, j: nat, a: nat, b: nat)
    requires Indexable(P) && i < |P| && j < |P| && a <= b
    requires Throughout(LevelF(P, MaxIncrement(P, |P|)), b)
    requires P[i].arrival <= a && P[j].arrival <= a && ReadyAt(P, i, b) && ReadyAt(P, j, b)
    ensures Distance(Increment(P[i].nice) * Share(P, i, a, b), Increment(P[j].nice) * Share(P, j, a, b))
         <= 2 * MaxIncrement(P, |P|)
  {
    PlacedLedger(P, i, a, b, Increment(P[i].nice));
    PlacedLedger(P, j, a, b, Increment(P[j].nice));
    ActiveEarlier(P, i, a, b);
    ActiveEarlier(P, j, a, b);
    PlacedWithin(P, i, j, a, b);
    PlacedWithin(P, i, j, b, b);
  }

  /** So the shares are fair whenever companions find nobody ready. */
  lemma FairShares(P: Table, i: nat, j: nat, a: nat, b: nat)
    requires Indexable(P) && CompanionsFindNobody(P) && i < |P| && j < |P| && a <= b
    requires P[i].arrival <= a && P[j].arrival <= a && ReadyAt(P, i, b) && ReadyAt(P, j, b)
    ensures Distance(Increment(P[i].nice) * Share(P, i, a, b), Increment(P[j].nice) * Share(P, j, a, b))
         <= 2 * MaxIncrement(P, |P|)
  {
    LevelThroughout(P, b);
    SharesWhenLevel(P, i, j, a, b);
  }

  lemma ActiveEarlier(P: Table, i: nat, a: nat, b: nat)
    requires Fresh(P) && i < |P| && P[i].arrival <= a <= b && ReadyAt(P, i, b)
    ensures ReadyAt(P, i, a)
  {
    AfterPrefix(CfsScheduler(), P, b, a);
    var tl, tl' := After(CfsScheduler(), P, a).value.timeline, After(CfsScheduler(), P, b).value.timeline;
    PlayedPrefix(P[i], tl, tl', a);
    RemainingFalls(P[i], tl', a, b);
    PlayedStatic(P[i], tl, a);
  }

  /** Right after admission, any two active processes are within the largest increment. */
  lemma {:induction false} PlacedWithin(P: Table, i: nat, j: nat, t: nat, b: nat)
    requires Indexable(P) && i < |P| && j < |P| && ReadyAt(P, i, t) && ReadyAt(P, j, t)
    requires t <= b && Throughout(LevelF(P, MaxIncrement(P, |P|)), b)
    ensures Distance(Placed(P, t, i), Placed(P, t, j)) <= MaxIncrement(P, |P|)
  {
    var d := MaxIncrement(P, |P|);
    StaysFairIff(P, t);
    assert FairF(P, d)(t) && LevelF(P, d)(t);
    PlacedWithinStep(P, i, j, t, d);
  }

  lemma PlacedWithinStep(P: Table, i: nat, j: nat, t: nat, d: nat)
    requires Fresh(P) && i < |P| && j < |P| && ReadyAt(P, i, t) && ReadyAt(P, j, t)
    requires FairAt(P, t, d) && LevelAt(P, t, d)
    ensures Distance(Placed(P, t, i), Placed(P, t, j)) <= d
  {
    var s, a, b, s' := OneTick(P, t);
    PlayedSame(P, s.timeline, t, s.procs);
    AdmitSpreadIff(s.st, s.procs, t, d);
    assert Active(s.procs[i], t) && Active(s.procs[j], t);
  }

  // ---------- Negative nice ----------

  /** Process `i` has the least virtual runtime of all active ones. */
  ghost predicate Least(vr: seq<int>, ps: Table, tick: int, i: nat)
    requires i < |ps|
  {
    forall j :: 0 <= j < |ps| && Active(ps[j], tick) ==> Vruntime(vr, ps[i].pid) <= Vruntime(vr, ps[j].pid)
  }

  /** A lone arrival does not undercut the least. */
  lemma LeastSurvivesArrival(s: State, ps: Table, tick: int, i: nat, p: nat)
    requires MidRun(ps, tick) && VrOk(s.vr, ps, tick) && i < |ps| && p < |ps| && Lone(ps, tick, p)
    requires Active(ps[i], tick - 1) && Least(s.vr, ps, tick - 1, i)
    ensures Least(Admit(CfsScheduler(), s, ps, tick, |ps|).vr, ps, tick, i)
  {
    AdmitLone(s, ps, tick, |ps|, p);
    if ps[p].arrival == tick {
      DistinctPids(ps, i, p);
      var m := MinOtherIsSomebodys(s.vr, ps, ps[p].pid, tick, |ps|);
      OthersKeep(s.vr, ps, p, Vruntime(OnArrival(s, ps, ps[p], tick).vr, ps[p].pid));
    }
  }

  /** The least, if it ran last and is unfinished, runs again. */
  lemma LeastIncumbentWins(vr: seq<int>, ps: Table, tick: int, i: nat)
    requires MidRun(ps, tick) && i < |ps| && Active(ps[i], tick) && Least(vr, ps, tick, i)
    ensures Contend(ps, tick, ByVruntime(vr), ps[i].pid) == i
  {
    IndexOfOwn(ps, i);
    var b := Best(ps, tick, ByVruntime(vr), |ps|);
    assert KeyOf(ByVruntime(vr), ps[b]) <= KeyOf(ByVruntime(vr), ps[i]);
  }

  lemma ZeroChargeKeepsLeast(vr: seq<int>, ps: Table, tick: nat, i: nat, running: int)
    requires MidRun(ps, tick) && i < |ps| && Active(ps[i], tick) && Increment(ps[i].nice) == 0
    requires i == Contend(ps, tick, ByVruntime(vr), running)
    ensures Least(Charged(vr, ps, i), Execute(ps, ps[i].pid, tick), tick, i)
  {
    LeastKey(vr, ps, tick, i, running);
    IndexOfOwn(ps, i);
    OthersKeep(vr, ps, i, Vruntime(vr, ps[i].pid));
  }

  /** A process with negative nice, once dispatched, loses the CPU unfinished only to
      companions arriving together, and to those exactly when its virtual runtime is not 0:
      its truncated increment is 0, so nobody else ever becomes strictly better. */
  lemma NegativeNiceKeepsCpuIff(P: Table, t: nat, i: nat)
    requires Indexable(P) && i < |P| && P[i].nice < 0 && RanAt(P, t, i) && ReadyAt(P, i, t + 1)
    ensures RanAt(P, t + 1, i)
       <==> !Companions(P, t + 1) || Vruntime(After(CfsScheduler(), P, t + 1).value.st.vr, P[i].pid) == 0
  {
    var s' := After(CfsScheduler(), P, t + 1).value;
    ReadyRemaining(P, i, t + 1, s');
    LeastAfterRunning(P, t, i, s');
    StaysInOrder(P, t + 1);
    KeepsCpuNext(P, t + 1, i, s');
  }

  /** When companions find nobody ready it keeps the CPU until it completes. */
  lemma NegativeNiceKeepsCpu(P: Table, t: nat, i: nat)
    requires Indexable(P) && CompanionsFindNobody(P) && i < |P| && P[i].nice < 0
    requires RanAt(P, t, i) && ReadyAt(P, i, t + 1)
    ensures RanAt(P, t + 1, i)
  {
    NegativeNiceKeepsCpuIff(P, t, i);
    if Companions(P, t + 1) {
      var s := StateAt(P, t + 1);
      Lawful(P, t + 1, s);
      PlayedSame(P, s.timeline, t + 1, s.procs);
      NobodyReady(P, t + 1, s);
      ReadyRemaining(P, i, t + 1, s);
      ArrivedBy(P, t, i);
    }
  }

  /** Whoever ran has arrived. */
  lemma ArrivedBy(P: Table, t: nat, i: nat)
    requires Fresh(P) && i < |P| && RanAt(P, t, i)
    ensures P[i].arrival <= t
  {
    var s := StateAt(P, t + 1);
    Lawful(P, t + 1, s);
    assert LegalTick(P, s.timeline, t);
    IndexOfOwn(P, i);
    PlayedStatic(P[i], s.timeline, t);
  }

  lemma LeastAfterRunning(P: Table, t: nat, i: nat, s': Sim<State>)
    requires Fresh(P) && i < |P| && P[i].nice < 0 && After(CfsScheduler(), P, t + 1) == Some(s')
    requires s'.timeline[t] == P[i].pid && |s'.procs| == |P| && s'.procs[i].remaining > 0
    ensures s'.st.running == P[i].pid && Active(s'.procs[i], t) && Least(s'.st.vr, s'.procs, t, i)
  {
    var s, a, b, s1 := OneTick(P, t);
    PlayedSame(P, s.timeline, t, s.procs);
    LeastAfterTick(s.procs, a, b, i, t, s'.st, s'.procs);
  }

  lemma LeastAfterTick(ps: Table, a: State, b: int, i: nat, t: nat, st: State, after: Table)
    requires MidRun(ps, t) && i < |ps| && ps[i].nice < 0
    requires b == Contend(ps, t, ByVruntime(a.vr), a.running) && (b >= 0 ==> Active(ps[b], t))
             && PidAt(ps, b) == ps[i].pid
    requires after == Execute(ps, ps[i].pid, t) && after[i].remaining > 0
    requires st == State(Charged(a.vr, ps, b), if Finishes(ps, ps[i].pid) then IDLE else ps[i].pid)
    ensures st.running == ps[i].pid && Active(after[i], t) && Least(st.vr, after, t, i)
  {
    IndexOfOwn(ps, i);
    assert b == i;
    ZeroChargeKeepsLeast(a.vr, ps, t, i, a.running);
  }

  lemma ReadyRemaining(P: Table, i: nat, t: nat, s: Sim<State>)
    requires Fresh(P) && i < |P| && After(CfsScheduler(), P, t) == Some(s) && ReadyAt(P, i, t)
    ensures |s.procs| == |P| && s.procs[i].remaining > 0 && s.procs[i].arrival == P[i].arrival
            && s.procs[i].pid == P[i].pid
  {
    Ledger(CfsScheduler(), P, t);
    PlayedStatic(P[i], s.timeline, t);
  }

  lemma KeepsCpuNext(P: Table, t: nat, i: nat, s: Sim<State>)
    requires Fresh(P) && i < |P| && t > 0
    requires After(CfsScheduler(), P, t) == Some(s) && s.st.running == P[i].pid
    requires |s.procs| == |P| && VrOk(s.st.vr, s.procs, t)
    requires Active(s.procs[i], t - 1) && Least(s.st.vr, s.procs, t - 1, i)
    ensures RanAt(P, t, i) <==> !Companions(P, t) || Vruntime(s.st.vr, P[i].pid) == 0
  {
    var r, a, b, s' := OneTick(P, t);
    PlayedSame(P, s.timeline, t, s.procs);
    MidRunPids(s.procs, b, i);
    KeepsCpuTick(s.st, s.procs, a, b, t, i);
    SameCompanions(P, s.procs, t);
  }

  lemma SameCompanions(P: Table, ps: Table, t: int)
    requires |P| == |ps| && forall i :: 0 <= i < |P| ==> P[i].arrival == ps[i].arrival
    ensures Companions(P, t) <==> Companions(ps, t)
  {
  }

  lemma KeepsCpuTick(st: State, ps: Table, a: State, b: int, t: nat, i: nat)
    requires MidRun(ps, t) && VrOk(st.vr, ps, t) && i < |ps| && st.running == ps[i].pid == a.running
    requires Active(ps[i], t - 1) && Least(st.vr, ps, t - 1, i)
    requires a == Admit(CfsScheduler(), st, ps, t, |ps|) && b == Contend(ps, t, ByVruntime(a.vr), a.running)
    ensures b == i <==> !Companions(ps, t) || Vruntime(st.vr, ps[i].pid) == 0
  {
    if !Companions(ps, t) {
      var p := if q: nat :| q < |ps| && ps[q].arrival == t then q else 0;
      assert Lone(ps, t, p);
      LeastSurvivesArrival(st, ps, t, i, p);
      LeastIncumbentWins(a.vr, ps, t, i);
    } else {
      var p, q :| 0 <= p < q < |ps| && ps[p].arrival == t && ps[q].arrival == t;
      CompanionsAtZero(st, ps, t, p, q);
      AgainstCompanions(a, ps, t, i, p, b);
    }
  }

  /** Against a companion at 0, the least keeps the CPU exactly when it is at 0 too. */
  lemma AgainstCompanions(a: State, ps: Table, t: nat, i: nat, p: nat, b: int)
    requires MidRun(ps, t) && VrOk(a.vr, ps, t) && i < |ps| && p < |ps| && ps[p].arrival == t
    requires Active(ps[i], t - 1) && a.running == ps[i].pid && b == Contend(ps, t, ByVruntime(a.vr), a.running)
    ensures b == i <==> Vruntime(a.vr, ps[i].pid) == 0
  {
    assert Active(ps[p], t) && Vruntime(a.vr, ps[p].pid) == 0;
    LeastKey(a.vr, ps, t, b, a.running);
    if Vruntime(a.vr, ps[i].pid) == 0 { LeastIncumbentWins(a.vr, ps, t, i); }
  }

  lemma MidRunPids(ps: Table, b: int, i: nat)
    requires Sorted(ps) && -1 <= b < |ps| && i < |ps| && ps[i].pid != IDLE
    ensures PidAt(ps, b) == ps[i].pid <==> b == i
  {
    if b >= 0 && b != i { DistinctPids(ps, i, b); }
  }

  ghost predicate Bounded(vr: seq<int>, m: int) {
    forall k :: 0 <= k < |vr| ==> vr[k] <= m
  }

  /** Virtual runtimes stay in order, however processes arrive, and far below 2^64. */
  lemma {:induction false} StaysInOrder(P: Table, t: nat)
    requires Indexable(P)
    ensures After(CfsScheduler(), P, t).Some?
    ensures var s := After(CfsScheduler(), P, t).value; VrOk(s.st.vr, s.procs, t) && Bounded(s.st.vr, 3 * t)
  {
    if t > 0 {
      StaysInOrder(P, t - 1);
      var s, a, b, s' := OneTick(P, t - 1);
      AdmitInOrder(s.st, s.procs, t - 1, |P|, 3 * (t - 1));
      RunInOrder(a.vr, s.procs, t - 1, b, 3 * (t - 1));
    }
  }

  lemma {:induction false} AdmitInOrder(s: State, ps: Table, tick: int, k: nat, m: nat)
    requires MidRun(ps, tick) && VrOk(s.vr, ps, tick) && Bounded(s.vr, m) && k <= |ps|
    ensures var a := Admit(CfsScheduler(), s, ps, tick, k); VrOk(a.vr, ps, tick + 1) && Bounded(a.vr, m)
  {
    if k > 0 {
      AdmitInOrder(s, ps, tick, k - 1, m);
      if ps[k - 1].arrival == tick { ArriveInOrder(Admit(CfsScheduler(), s, ps, tick, k - 1), ps, tick, k - 1, m); }
    }
  }

  lemma ArriveInOrder(a: State, ps: Table, tick: int, p: nat, m: nat)
    requires MidRun(ps, tick) && VrOk(a.vr, ps, tick + 1) && Bounded(a.vr, m) && p < |ps| && ps[p].arrival == tick
    ensures var r := OnArrival(a, ps, ps[p], tick); VrOk(r.vr, ps, tick + 1) && Bounded(r.vr, m)
  {
    if MinOther(a.vr, ps, ps[p].pid, tick, |ps|).Some? {
      var i := MinOtherIsSomebodys(a.vr, ps, ps[p].pid, tick, |ps|);
    }
    OthersKeep(a.vr, ps, p, Vruntime(OnArrival(a, ps, ps[p], tick).vr, ps[p].pid));
  }

  lemma RunInOrder(vr: seq<int>, ps: Table, tick: nat, b: int, m: nat)
    requires MidRun(ps, tick) && VrOk(vr, ps, tick + 1) && Bounded(vr, m) && -1 <= b < |ps|
             && (b >= 0 ==> Active(ps[b], tick))
    ensures var vr' := Charged(vr, ps, b); VrOk(vr', Execute(ps, PidAt(ps, b), tick), tick + 1) && Bounded(vr', m + 3)
  {
    if b >= 0 { OthersKeep(vr, ps, b, Vruntime(vr, ps[b].pid) + Increment(ps[b].nice)); }
  }
}
