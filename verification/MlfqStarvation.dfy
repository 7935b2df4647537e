/** What a boost owes the processes it queues, by their places. */
module MlfqStarvation {
  import opened Processes
  import opened Engine
  import opened Timelines
  import opened WorkConservation
  import opened ReadyLists
  import opened MultiQueue
  import opened Mlfq

  /** Ticks the present top-level slice still needs. */
  function OnTop(s: State): nat {
    if s.running != IDLE && s.level == 0 && s.left > 0 then s.left else 0
  }

  function Sub2(r: int): int { if r <= 2 then 0 else r - 2 }

  /** The process with pid `x` had `r0` left when it joined the top level, now has `r`, and
      will have had two ticks, or finished, within `d` more. */
  ghost predicate Due(s: State, x: int, r: int, r0: int, d: int) {
    || r <= Sub2(r0)
    || (s.running == x && s.level == 0 && s.left == 1 && r == r0 - 1 && 1 <= d)
    || (r == r0 && exists p :: 0 <= p < |s.m.q.l0| && s.m.q.l0[p] == x && OnTop(s) + 2 * (p + 1) <= d)
  }

  /** A pick without a boost leaves a top-level slice alone, and otherwise starts the next one. */
  lemma SelectAdvances(a: State)
    requires SliceOk(a, LEVEL_QUANTUM) && a.m.saved.l0 == 0
    ensures var b := Select(a).0;
            && (OnTop(a) > 0 ==> b == a)
            && (OnTop(a) == 0 && a.m.q.l0 != [] ==>
                  b.running == a.m.q.l0[0] && b.level == 0 && b.left == 2 && b.m.q.l0 == a.m.q.l0[1..])
  {
  }

  /** Execution uses one tick of the top-level slice and leaves the top-level queue alone. */
  lemma SettleOnTop(b: State, ps: Table)
    requires b.running != IDLE && b.level == 0 && 1 <= b.left
    ensures var s := Settled(b, ps);
            && s.m.q.l0 == b.m.q.l0 && OnTop(s) <= b.left - 1
            && (b.left == 2 && !Finishes(ps, b.running) ==> s.running == b.running && s.level == 0 && s.left == 1)
  {
  }

  /** What process `i` still needs after `t` ticks of an MLFQ run. */
  ghost function Need(P: Table, i: nat, t: nat): int
    requires i < |P|
  {
    var r := After(MlfqScheduler(), P, t);
    if r.Some? then r.value.procs[i].remaining else 0
  }

  /** `Due` by tick `end`, as tick `t` of the run of `P` begins. */
  ghost predicate DueAt(P: Table, t: nat, i: nat, r0: int, end: int)
    requires i < |P|
  {
    var r := After(MlfqScheduler(), P, t);
    r.Some? && Due(r.value.st, P[i].pid, r.value.procs[i].remaining, r0, end - t)
  }

  /** On an ordinary tick everybody owed top-level service gets closer to having had it. */
  lemma DueTick(P: Table, t: nat, next: nat, i: nat, r0: int, end: int)
    requires Fresh(P) && i < |P| && P[i].arrival <= t && !IsBoostTick(t) && next == t + 1 <= end
    requires DueAt(P, t, i, r0, end)
    ensures DueAt(P, next, i, r0, end)
  {
    var s, b, s' := OneTick(P, t);
    ExecuteOne(s.procs, b.running, t, i);
    DueStep(s.st, s.procs, b, t, i, r0, end - t);
  }

  lemma DueStep(s: State, ps: Table, b: State, t: nat, i: nat, r0: int, d: int)
    requires MidRun(ps, t) && i < |ps| && ps[i].arrival <= t && d >= 1
    requires var a := Admitted(s, ps, t);
             SliceOk(a, LEVEL_QUANTUM) && a.m.saved.l0 == 0 && Lists(Held(a), ps, t) && b == Select(a).0
    requires PickedWell(b, b.running, LEVEL_QUANTUM, ps, t)
    requires Due(s, ps[i].pid, ps[i].remaining, r0, d)
    ensures Due(Settled(b, ps), ps[i].pid, Execute(ps, b.running, t)[i].remaining, r0, d - 1)
  {
    var a, x := Admitted(s, ps, t), ps[i].pid;
    ExecuteOne(ps, b.running, t, i);
    if ps[i].remaining > Sub2(r0) {
      if s.running == x && s.level == 0 && s.left == 1 && ps[i].remaining == r0 - 1 {
        SelectAdvances(a);
      } else {
        var p :| 0 <= p < |s.m.q.l0| && s.m.q.l0[p] == x && OnTop(s) + 2 * (p + 1) <= d;
        assert a.m.q.l0[p] == x;
        QueuedStep(a, ps, b, t, i, r0, d, p);
      }
    }
  }

  /** Somebody queued on the top level is not also elsewhere. */
  lemma QueuedOnce(a: State, ps: Table, t: nat, p: nat)
    requires MidRun(ps, t) && Lists(Held(a), ps, t) && p < |a.m.q.l0|
    ensures a.m.q.l0[p] != IDLE && a.running != a.m.q.l0[p]
    ensures p > 0 ==> a.m.q.l0[0] != a.m.q.l0[p]
  {
    var c := |OnCpu(a.running)|;
    assert Held(a)[c + p] == a.m.q.l0[p] && Held(a)[c] == a.m.q.l0[0];
    ListsIff(Held(a), ps, t, Held(a)[c + p]);
    if p > 0 { ListsDistinct(Held(a), ps, t, c, c + p); }
    if c == 1 { ListsDistinct(Held(a), ps, t, 0, c + p); }
  }

  lemma QueuedStep(a: State, ps: Table, b: State, t: nat, i: nat, r0: int, d: int, p: nat)
    requires MidRun(ps, t) && i < |ps| && ps[i].arrival <= t
    requires SliceOk(a, LEVEL_QUANTUM) && a.m.saved.l0 == 0 && Lists(Held(a), ps, t) && b == Select(a).0
    requires PickedWell(b, b.running, LEVEL_QUANTUM, ps, t)
    requires p < |a.m.q.l0| && a.m.q.l0[p] == ps[i].pid && OnTop(a) + 2 * (p + 1) <= d
    requires ps[i].remaining == r0 > 0
    ensures Due(Settled(b, ps), ps[i].pid, Execute(ps, b.running, t)[i].remaining, r0, d - 1)
  {
    assert Active(ps[i], t);
    SelectAdvances(a);
    QueuedOnce(a, ps, t, p);
    ExecuteOne(ps, b.running, t, i);
    SettleOnTop(b, ps);
    var s' := Settled(b, ps);
    if b.running != ps[i].pid {
      var p' := if OnTop(a) > 0 then p else p - 1;
      assert s'.m.q.l0[p'] == ps[i].pid && OnTop(s') + 2 * (p' + 1) <= d - 1;
    }
  }

  /** Where a boost queues process `i`: behind the running process and those ready before it. */
  function Place(a: State, ps: Table, t: int, i: nat): (p: nat)
    requires i < |ps|
  {
    if ps[i].pid == a.running then 0 else |OnCpu(a.running)| + |Others(ps, t, a.running, i)|
  }

  /** Process `i`, if it is still there, is among the first `c` at boost tick `t`. */
  ghost predicate InPlace(P: Table, t: nat, i: nat, c: int)
    requires i < |P|
  {
    var r := After(MlfqScheduler(), P, t);
    && r.Some?
    && (r.value.procs[i].remaining > 0 ==> Place(Admitted(r.value.st, r.value.procs, t), r.value.procs, t, i) < c)
  }

  lemma {:induction false} OthersPlace(ps: Table, t: int, running: int, i: nat, k: nat)
    requires i < k <= |ps| && Active(ps[i], t) && ps[i].pid != running
    ensures var l, p := Others(ps, t, running, k), |Others(ps, t, running, i)|; p < |l| && l[p] == ps[i].pid
  {
    if i < k - 1 { OthersPlace(ps, t, running, i, k - 1); }
  }

  lemma BoostPuts(a: State, ps: Table, t: nat, i: nat)
    requires MidRun(ps, t) && i < |ps| && Active(ps[i], t)
    ensures var l0, p := Boost(a, ps, t).m.q.l0, Place(a, ps, t, i); p < |l0| && l0[p] == ps[i].pid
  {
    BoostHeld(a, ps, t);
    assert Held(Boost(a, ps, t)) == Boost(a, ps, t).m.q.l0;
    if ps[i].pid != a.running { OthersPlace(ps, t, a.running, i, |ps|); }
  }

  lemma BoostFinds(a: State, ps: Table, t: nat, i: nat)
    requires MidRun(ps, t) && i < |ps| && Active(ps[i], t)
    requires SliceOk(a, LEVEL_QUANTUM) && Lists(Held(a), ps, t)
    ensures var l0, p := Boost(a, ps, t).m.q.l0, Place(a, ps, t, i);
            && p < |l0| <= |ps| && l0[p] == ps[i].pid
            && l0[0] != IDLE && (p > 0 ==> l0[0] != l0[p])
  {
    var c := Boost(a, ps, t);
    BoostPuts(a, ps, t, i);
    BoostKeeps(a, ps, t);
    ListsLength(Held(c), ps, t);
    QueuedOnce(c, ps, t, Place(a, ps, t, i));
    QueuedOnce(c, ps, t, 0);
  }

  /** A boost puts everybody ready on the top level: those among the first `c` will have been
      served within `2 * c` ticks. */
  lemma BoostOwes(P: Table, t: nat, i: nat, c: nat)
    requires Fresh(P) && i < |P| && P[i].arrival <= t && IsBoostTick(t) && InPlace(P, t, i, c)
    ensures DueAt(P, t + 1, i, Need(P, i, t), t + 2 * c)
  {
    var s, b, s' := OneTick(P, t);
    ExecuteOne(s.procs, b.running, t, i);
    BoostStep(Admitted(s.st, s.procs, t), s.procs, b, t, i, c);
  }

  lemma BoostStep(a: State, ps: Table, b: State, t: nat, i: nat, c: nat)
    requires MidRun(ps, t) && i < |ps| && ps[i].arrival <= t && (ps[i].remaining > 0 ==> Place(a, ps, t, i) < c)
    requires SliceOk(a, LEVEL_QUANTUM) && Lists(Held(a), ps, t) && b == Select(Boost(a, ps, t)).0
    requires b.running == IDLE || Runnable(ps, b.running, t)
    ensures Due(Settled(b, ps), ps[i].pid, Execute(ps, b.running, t)[i].remaining, ps[i].remaining, 2 * c - 1)
  {
    ExecuteOne(ps, b.running, t, i);
    if ps[i].remaining > 0 {
      var p := Place(a, ps, t, i);
      BoostFinds(a, ps, t, i);
      BoostPops(Boost(a, ps, t));
      SettleOnTop(b, ps);
      assert p > 0 ==> Settled(b, ps).m.q.l0[p - 1] == ps[i].pid;
    }
  }

  lemma BoostPops(c: State)
    requires c.running == IDLE && c.m.q.l0 != [] && (c.m.saved.l0 == 0 || c.m.saved.l0 == 2)
    ensures var b := Select(c).0;
            b.running == c.m.q.l0[0] && b.level == 0 && b.left == 2 && b.m.q.l0 == c.m.q.l0[1..]
  {
  }

  lemma {:induction false} DueTicks(P: Table, t: nat, i: nat, r0: int, end: nat, u: nat)
    requires Fresh(P) && i < |P| && P[i].arrival <= t <= u <= end && DueAt(P, t, i, r0, end)
    requires forall v :: t <= v < u ==> !IsBoostTick(v)
    ensures DueAt(P, u, i, r0, end)
  {
    if t < u {
      DueTicks(P, t, i, r0, end, u - 1);
      DueTick(P, u - 1, u, i, r0, end);
    }
  }

  lemma DueByNow(P: Table, t: nat, i: nat, r0: int, end: nat)
    requires Fresh(P) && i < |P| && P[i].arrival <= t <= end && DueAt(P, t, i, r0, end)
    requires forall u :: t <= u < end ==> !IsBoostTick(u)
    ensures Need(P, i, end) <= Sub2(r0)
  {
    DueTicks(P, t, i, r0, end, end);
    DueServed(P, end, i, r0);
  }

  lemma ServedBy(P: Table, t: nat, next: nat, i: nat, r0: int, end: nat)
    requires Fresh(P) && i < |P| && P[i].arrival <= t && IsBoostTick(t) && next == t + 1 <= end <= t + BOOST_INTERVAL
    requires DueAt(P, next, i, r0, end)
    ensures Need(P, i, end) <= Sub2(r0)
  {
    forall u | next <= u < end ensures !IsBoostTick(u) { OneBoostPerInterval(t, u); }
    DueByNow(P, next, i, r0, end);
  }

  /** Whoever a boost queues among the first `c`, up to 25, has had two ticks within `2 * c`, or
      has finished. */
  lemma BoostServes(P: Table, t: nat, i: nat, c: nat)
    requires Indexable(P) && i < |P| && P[i].arrival <= t && IsBoostTick(t) && 0 < c <= 25 && InPlace(P, t, i, c)
    ensures Need(P, i, t + 2 * c) <= Sub2(Need(P, i, t))
  {
    BoostOwes(P, t, i, c);
    ServedBy(P, t, t + 1, i, Need(P, i, t), t + 2 * c);
  }

  /** The table's order bounds the places of its first slots, and its size all of them. */
  lemma PlaceBound(P: Table, t: nat, i: nat)
    requires Fresh(P) && i < |P| && P[i].arrival <= t && IsBoostTick(t)
    ensures InPlace(P, t, i, i + 2) && InPlace(P, t, i, |P|)
  {
    var s, b, s' := OneTick(P, t);
    var a := Admitted(s.st, s.procs, t);
    OthersAre(s.procs, t, a.running, i);
    if s.procs[i].remaining > 0 { BoostFinds(a, s.procs, t, i); }
  }

  lemma OneBoostPerInterval(t: nat, u: nat)
    requires IsBoostTick(t) && t < u < t + BOOST_INTERVAL
    ensures !IsBoostTick(u)
  {
  }

  lemma DueServed(P: Table, t: nat, i: nat, r0: int)
    requires i < |P| && DueAt(P, t, i, r0, t)
    ensures Need(P, i, t) <= Sub2(r0)
  {
  }

  /** Needs never grow. */
  lemma {:induction false} NeedFalls(P: Table, i: nat, t: nat, u: nat)
    requires Fresh(P) && i < |P| && t <= u
    ensures Need(P, i, u) <= Need(P, i, t)
  {
    if t < u {
      NeedFalls(P, i, t, u - 1);
      NeedStep(P, i, u - 1);
    }
  }

  lemma NeedStep(P: Table, i: nat, t: nat)
    requires Fresh(P) && i < |P|
    ensures Need(P, i, t + 1) <= Need(P, i, t)
  {
    var s, b, s' := OneTick(P, t);
    ExecuteOne(s.procs, b.running, t, i);
  }

  lemma NeedInRange(P: Table, i: nat, t: nat)
    requires Fresh(P) && i < |P|
    ensures After(MlfqScheduler(), P, t).Some? && 0 <= Need(P, i, t) <= P[i].burst
  {
    NeverFails(P);
    assert HoldsAt(MlfqScheduler(), P, InvF(), t);
    Ledger(MlfqScheduler(), P, t);
    Books(P, After(MlfqScheduler(), P, t).value.timeline, i, t);
  }

  /** The first boost at or after tick `a`. */
  function FirstBoost(a: nat): (t: nat)
    ensures IsBoostTick(t) && a <= t && forall u: nat :: a <= u < t ==> !IsBoostTick(u)
    ensures t > 0 && t % 50 == 0 && t < a + 50 + (if a == 0 then 1 else 0)
  {
    if a == 0 then BOOST_INTERVAL else (a + BOOST_INTERVAL - 1) / BOOST_INTERVAL * BOOST_INTERVAL
  }
}
