/** A process leaves an MLFQ level only at the end of a slice. */
module MlfqSlices {
  import opened Processes
  import opened Engine
  import opened Timelines
  import opened ReadyLists
  import opened MultiQueue
  import opened Mlfq
  import opened Slices

  /** The ticks pid `x` has had of its present slice as tick `t` of the MLFQ run begins. */
  ghost function Used(P: Table, t: nat, x: int): int {
    if t == 0 then 0
    else
      var r, r' := After(MlfqScheduler(), P, t - 1), After(MlfqScheduler(), P, t);
      if r.None? || r'.None? then 0
      else Charge(Used(P, t - 1, x), x, IsBoostTick(t - 1), Choice(MlfqScheduler(), r.value).0, r'.value.st)
  }

  /** `x` is running from level `lv`, or queued there. */
  predicate IsAt(s: State, x: int, lv: int) {
    (s.running == x && s.level == lv) || x in s.m.q.At(lv)
  }

  lemma SelectBalanced(a: State, used: int -> int)
    requires SliceOk(a, LEVEL_QUANTUM) && Balanced(a, LEVEL_QUANTUM, used) && NotQueued(a, IDLE)
    ensures Balanced(Select(a).0, LEVEL_QUANTUM, used)
  {
    if a.running == IDLE {
      TakeBalanced(a, LEVEL_QUANTUM, used);
    } else if 0 <= Highest(a.m) < a.level {
      PutBackBalanced(a, LEVEL_QUANTUM, used);
      TakeBalanced(PutBack(a), LEVEL_QUANTUM, used);
    }
  }

  lemma AdmitBalanced(s: State, ps: Table, tick: int, used: int -> int)
    requires SliceOk(s, LEVEL_QUANTUM) && Balanced(s, LEVEL_QUANTUM, used)
    requires forall x :: x in Arriving(ps, tick) ==> used(x) == 0
    ensures Balanced(Admitted(s, ps, tick), LEVEL_QUANTUM, used)
  {
    var a := Admitted(s, ps, tick);
    assert QueueBalanced(s.m, LEVEL_QUANTUM, used, 1) && QueueBalanced(s.m, LEVEL_QUANTUM, used, 2);
    forall p | 0 <= p < |a.m.q.l1|
      ensures PlaceBalanced(a.m, LEVEL_QUANTUM, used, 1, p)
    {
      assert PlaceBalanced(s.m, LEVEL_QUANTUM, used, 1, p);
    }
    forall p | 0 <= p < |a.m.q.l2|
      ensures PlaceBalanced(a.m, LEVEL_QUANTUM, used, 2, p)
    {
      assert PlaceBalanced(s.m, LEVEL_QUANTUM, used, 2, p);
    }
    forall p | 0 <= p < |a.m.q.l0|
      ensures PlaceBalanced(a.m, LEVEL_QUANTUM, used, 0, p)
    {
      assert QueueBalanced(s.m, LEVEL_QUANTUM, used, 0) && SavedOk(s.m, LEVEL_QUANTUM, 0);
      if p < |s.m.q.l0| {
        assert PlaceBalanced(s.m, LEVEL_QUANTUM, used, 0, p);
      } else {
        assert a.m.q.l0[p] == Arriving(ps, tick)[p - |s.m.q.l0|];
      }
    }
  }

  ghost function Zero(): int -> int { x => 0 }

  lemma BoostBalanced(a: State, ps: Table, tick: int)
    ensures Balanced(Boost(a, ps, tick), LEVEL_QUANTUM, Zero())
  {
  }

  ghost function UsedAt(P: Table, t: nat): int -> int { x => Used(P, t, x) }

  lemma PickBalanced(c: State, ps: Table, t: nat, b: State, used: int -> int, used': int -> int)
    requires MidRun(ps, t) && SliceOk(c, LEVEL_QUANTUM) && Lists(Held(c), ps, t) && Balanced(c, LEVEL_QUANTUM, used)
    requires b == Select(c).0 && PickedWell(b, b.running, LEVEL_QUANTUM, ps, t)
    requires forall x :: used'(x) == Charge(used(x), x, false, b, Settled(b, ps))
    ensures Balanced(Settled(b, ps), LEVEL_QUANTUM, used')
  {
    HeldOnce(c, ps, t);
    SelectBalanced(c, used);
    HeldOnce(b, ps, t);
    if b.running == IDLE {
      IdleBalanced(b, LEVEL_QUANTUM, used, used');
    } else {
      SettleBalanced(b, Settled(b, ps), LEVEL_QUANTUM, Below(b.level), used, used');
    }
  }

  lemma UsedSteps(P: Table, t: nat, s: Sim<State>, b: State, s': Sim<State>)
    requires After(MlfqScheduler(), P, t) == Some(s) && After(MlfqScheduler(), P, t + 1) == Some(s')
    requires b == Choice(MlfqScheduler(), s).0
    ensures forall x :: UsedAt(P, t + 1)(x) == Charge(UsedAt(P, t)(x), x, IsBoostTick(t), b, s'.st)
  {
  }

  lemma NextBalanced(P: Table, t: nat, s: Sim<State>, b: State, s': Sim<State>, used: int -> int, used': int -> int)
    requires Fresh(P) && BalancedRun(P, s.st, LEVEL_QUANTUM, used, t)
    requires |s.procs| == |P| && MidRun(s.procs, t) && Inv(s.st, s.procs, t)
    requires forall i :: 0 <= i < |P| ==> s.procs[i].pid == P[i].pid && s.procs[i].arrival == P[i].arrival
    requires var a := Admitted(s.st, s.procs, t);
             SliceOk(a, LEVEL_QUANTUM) && Lists(Held(a), s.procs, t) && b == PickNext(a, s.procs, t).0
    requires PickedWell(b, b.running, LEVEL_QUANTUM, s.procs, t) && s'.st == Settled(b, s.procs)
    requires forall x :: used'(x) == Charge(used(x), x, IsBoostTick(t), b, s'.st)
    ensures BalancedRun(P, s'.st, LEVEL_QUANTUM, used', t + 1)
  {
    TickBalanced(P, s.st, s.procs, b, t, used, used');
    StillUnused(P, t, s.procs, IsBoostTick(t), b, s'.st, used, used');
  }

  lemma TickBalanced(P: Table, s: State, ps: Table, b: State, t: nat, used: int -> int, used': int -> int)
    requires |ps| == |P| && MidRun(ps, t) && SliceOk(s, LEVEL_QUANTUM) && Balanced(s, LEVEL_QUANTUM, used)
    requires forall i :: 0 <= i < |P| ==> ps[i].pid == P[i].pid && ps[i].arrival == P[i].arrival
    requires forall i :: 0 <= i < |P| && P[i].arrival >= t ==> used(P[i].pid) == 0
    requires var a := Admitted(s, ps, t);
             SliceOk(a, LEVEL_QUANTUM) && Lists(Held(a), ps, t) && b == PickNext(a, ps, t).0
    requires PickedWell(b, b.running, LEVEL_QUANTUM, ps, t)
    requires forall x :: used'(x) == Charge(used(x), x, IsBoostTick(t), b, Settled(b, ps))
    ensures Balanced(Settled(b, ps), LEVEL_QUANTUM, used')
  {
    if IsBoostTick(t) {
      BoostTickBalanced(Admitted(s, ps, t), ps, b, t, used');
    } else {
      forall x | x in Arriving(ps, t) ensures used(x) == 0 { ArrivingIs(ps, t, |P|, x); }
      PlainTickBalanced(s, ps, b, t, used, used');
    }
  }

  lemma BoostTickBalanced(a: State, ps: Table, b: State, t: nat, used': int -> int)
    requires MidRun(ps, t) && SliceOk(a, LEVEL_QUANTUM) && Lists(Held(a), ps, t) && b == Select(Boost(a, ps, t)).0
    requires PickedWell(b, b.running, LEVEL_QUANTUM, ps, t)
    requires forall x :: used'(x) == Charge(0, x, false, b, Settled(b, ps))
    ensures Balanced(Settled(b, ps), LEVEL_QUANTUM, used')
  {
    BoostBalanced(a, ps, t);
    BoostKeeps(a, ps, t);
    PickBalanced(Boost(a, ps, t), ps, t, b, Zero(), used');
  }

  lemma PlainTickBalanced(s: State, ps: Table, b: State, t: nat, used: int -> int, used': int -> int)
    requires MidRun(ps, t) && SliceOk(s, LEVEL_QUANTUM) && Balanced(s, LEVEL_QUANTUM, used)
    requires forall x :: x in Arriving(ps, t) ==> used(x) == 0
    requires var a := Admitted(s, ps, t); SliceOk(a, LEVEL_QUANTUM) && Lists(Held(a), ps, t) && b == Select(a).0
    requires PickedWell(b, b.running, LEVEL_QUANTUM, ps, t)
    requires forall x :: used'(x) == Charge(used(x), x, false, b, Settled(b, ps))
    ensures Balanced(Settled(b, ps), LEVEL_QUANTUM, used')
  {
    AdmitBalanced(s, ps, t, used);
    PickBalanced(Admitted(s, ps, t), ps, t, b, used, used');
  }

  /** At every tick of every run, boosts and preemptions included, the slices balance. */
  lemma {:induction false} RunBalanced(P: Table, t: nat)
    requires Indexable(P)
    ensures After(MlfqScheduler(), P, t).Some?
    ensures BalancedRun(P, After(MlfqScheduler(), P, t).value.st, LEVEL_QUANTUM, UsedAt(P, t), t)
  {
    if t > 0 {
      RunBalanced(P, t - 1);
      var s, b, s' := OneTick(P, t - 1);
      UsedSteps(P, t - 1, s, b, s');
      NextBalanced(P, t - 1, s, b, s', UsedAt(P, t - 1), UsedAt(P, t));
    }
  }

  lemma InHead(q: seq<int>, x: int)
    requires x in q && x != q[0]
    ensures x in q[1..]
  {
  }

  /** A pick that passes `x` over leaves it on its level. */
  lemma PassedOver(a: State, ps: Table, t: nat, x: int, lv: int)
    requires MidRun(ps, t) && SliceOk(a, LEVEL_QUANTUM) && Lists(Held(a), ps, t) && 0 <= lv <= 2 && x != IDLE
    requires IsAt(a, x, lv) && Select(a).0.running != x
    ensures x in Select(a).0.m.q.At(lv)
  {
    var c := if a.running != IDLE && 0 <= Highest(a.m) < a.level then PutBack(a) else a;
    if x in c.m.q.At(lv) && c.running == IDLE && Highest(c.m) == lv {
      InHead(c.m.q.At(lv), x);
    }
  }

  /** A pick that takes `x` takes it at the level where it was. */
  lemma TakenFrom(a: State, ps: Table, t: nat, x: int, lv: int)
    requires MidRun(ps, t) && SliceOk(a, LEVEL_QUANTUM) && Lists(Held(a), ps, t) && 0 <= lv <= 2 && x != IDLE
    requires IsAt(a, x, lv) && Select(a).0.running == x
    ensures Select(a).0.level == lv
  {
    if x in a.m.q.At(lv) {
      OnePlace(a, ps, t, x, lv, lv);
      var top := Highest(a.m);
      if top >= 0 && a.m.q.At(top)[0] == x { OnePlace(a, ps, t, x, lv, top); }
    } else {
      TakenRunning(a, ps, t, x);
    }
  }

  lemma TakenRunning(a: State, ps: Table, t: nat, x: int)
    requires MidRun(ps, t) && SliceOk(a, LEVEL_QUANTUM) && Lists(Held(a), ps, t) && x != IDLE
    requires a.running == x && Select(a).0.running == x
    ensures Select(a).0.level == a.level
  {
    HeldOnce(a, ps, t);
  }

  predicate AtTail(q: seq<int>, x: int) { q != [] && q[|q| - 1] == x }

  /** What a tick makes of pid `x`, which starts it at level `lv` and has had `used` ticks of
      its slice once this one has executed: two take it from the top to the tail of the middle,
      four from there to the tail of the bottom, and eight to the tail of the bottom again. */
  ghost predicate FollowsRule(s': State, x: int, lv: int, ran: bool, used: int) {
    if ran && lv == 0 && used == 2 then s'.running == IDLE && AtTail(s'.m.q.l1, x)
    else if ran && lv == 1 && used == 4 then s'.running == IDLE && AtTail(s'.m.q.l2, x)
    else if ran && lv == 2 && used == 8 then s'.running == IDLE && AtTail(s'.m.q.l2, x)
    else IsAt(s', x, lv) && 0 <= used < (if lv == 0 then 2 else if lv == 1 then 4 else 8)
  }

  lemma RuleWhenRunning(b: State, ps: Table, x: int, used: int)
    requires b.running == x != IDLE && SliceOk(b, LEVEL_QUANTUM) && !Finishes(ps, x)
    requires used + b.left == LEVEL_QUANTUM.At(b.level)
    ensures FollowsRule(Settled(b, ps), x, b.level, true, used + 1)
  {
  }

  lemma RuleWhenQueued(b: State, ps: Table, x: int, lv: int, used: int -> int)
    requires b.running != x && 0 <= lv <= 2 && x in b.m.q.At(lv) && SliceOk(b, LEVEL_QUANTUM)
             && Balanced(b, LEVEL_QUANTUM, used)
    ensures FollowsRule(Settled(b, ps), x, lv, false, used(x))
  {
    assert QueueBalanced(b.m, LEVEL_QUANTUM, used, lv) && SavedOk(b.m, LEVEL_QUANTUM, lv);
    var p :| 0 <= p < |b.m.q.At(lv)| && b.m.q.At(lv)[p] == x;
    assert PlaceBalanced(b.m, LEVEL_QUANTUM, used, lv, p);
    assert x in Settled(b, ps).m.q.At(lv);
  }

  lemma RuleOnTick(c: State, ps: Table, t: nat, b: State, x: int, lv: int, used: int -> int)
    requires MidRun(ps, t) && SliceOk(c, LEVEL_QUANTUM) && Lists(Held(c), ps, t) && Balanced(c, LEVEL_QUANTUM, used)
    requires b == Select(c).0 && PickedWell(b, b.running, LEVEL_QUANTUM, ps, t)
    requires 0 <= lv <= 2 && x != IDLE && IsAt(c, x, lv) && !(b.running == x && Finishes(ps, x))
    ensures FollowsRule(Settled(b, ps), x, lv, b.running == x, used(x) + (if b.running == x then 1 else 0))
  {
    HeldOnce(c, ps, t);
    SelectBalanced(c, used);
    if b.running == x {
      TakenFrom(c, ps, t, x, lv);
      RuleWhenRunning(b, ps, x, used(x));
    } else {
      PassedOver(c, ps, t, x, lv);
      RuleWhenQueued(b, ps, x, lv, used);
    }
  }

  /** Level discipline on ordinary ticks (invariant 9). A process at level `lv` that does not
      finish on this tick is demoted exactly when the tick is the last of its 2, 4 or 8 there;
      otherwise, preempted or not, it keeps its level and what it has used of its slice. */
  lemma {:induction false} LevelRule(P: Table, t: nat, x: int, lv: int)
    requires Indexable(P) && !(t > 0 && t % 50 == 0) && 0 <= lv <= 2 && x != IDLE && After(MlfqScheduler(), P, t).Some?
    requires var s := After(MlfqScheduler(), P, t).value; IsAt(Admitted(s.st, s.procs, t), x, lv)
    ensures After(MlfqScheduler(), P, t + 1).Some?
    ensures var s, s' := After(MlfqScheduler(), P, t).value, After(MlfqScheduler(), P, t + 1).value;
            var ran := s'.timeline[t] == x;
            !(ran && Finishes(s.procs, x)) ==>
              FollowsRule(s'.st, x, lv, ran, Used(P, t, x) + (if ran then 1 else 0))
  {
    RunBalanced(P, t);
    var s, b, s' := OneTick(P, t);
    if !(b.running == x && Finishes(s.procs, x)) {
      var used := UsedAt(P, t);
      forall y | y in Arriving(s.procs, t) ensures used(y) == 0 { ArrivingIs(s.procs, t, |P|, y); }
      AdmitBalanced(s.st, s.procs, t, used);
      RuleOnTick(Admitted(s.st, s.procs, t), s.procs, t, b, x, lv, used);
    }
  }

  /** On a boost tick everybody ready is at the top level, with nothing used of its slice. */
  lemma BoostRule(P: Table, t: nat, x: int)
    requires Indexable(P) && t > 0 && t % 50 == 0 && After(MlfqScheduler(), P, t).Some?
    requires x in Ready(After(MlfqScheduler(), P, t).value.procs, t)
    ensures After(MlfqScheduler(), P, t + 1).Some?
    ensures var s, s' := After(MlfqScheduler(), P, t).value, After(MlfqScheduler(), P, t + 1).value;
            var ran := s'.timeline[t] == x;
            !(ran && Finishes(s.procs, x)) ==> FollowsRule(s'.st, x, 0, ran, if ran then 1 else 0)
  {
    var s, b, s' := OneTick(P, t);
    BoostRuleOnTick(Admitted(s.st, s.procs, t), s.procs, t, b, x);
  }

  lemma BoostRuleOnTick(a: State, ps: Table, t: nat, b: State, x: int)
    requires MidRun(ps, t) && SliceOk(a, LEVEL_QUANTUM) && Lists(Held(a), ps, t)
    requires b == Select(Boost(a, ps, t)).0 && PickedWell(b, b.running, LEVEL_QUANTUM, ps, t)
    requires x in Ready(ps, t)
    ensures !(b.running == x && Finishes(ps, x)) ==>
              FollowsRule(Settled(b, ps), x, 0, b.running == x, if b.running == x then 1 else 0)
  {
    var c := Boost(a, ps, t);
    BoostKeeps(a, ps, t);
    BoostBalanced(a, ps, t);
    BoostedAt(a, ps, t, x);
    if !(b.running == x && Finishes(ps, x)) { RuleOnTick(c, ps, t, b, x, 0, Zero()); }
  }

  lemma BoostedAt(a: State, ps: Table, t: nat, x: int)
    requires MidRun(ps, t) && SliceOk(a, LEVEL_QUANTUM) && Lists(Held(a), ps, t) && x in Ready(ps, t)
    ensures x != IDLE && IsAt(Boost(a, ps, t), x, 0)
  {
    var c := Boost(a, ps, t);
    BoostKeeps(a, ps, t);
    InReady(ps, t, x);
    ListsIff(Held(c), ps, t, x);
    assert Held(c) == c.m.q.l0;
  }
}
