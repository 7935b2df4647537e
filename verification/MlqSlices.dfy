/** Preemption does not cost an MLQ process its turn. */
module MlqSlices {
  import opened Processes
  import opened Engine
  import opened Timelines
  import opened ReadyLists
  import opened MultiQueue
  import opened Slices
  import opened Mlq

  /** The ticks pid `x` has had of its present slice as tick `t` of the MLQ run begins. On the
      bottom level, which has no slices, all it has had there. */
  ghost function Used(P: Table, t: nat, x: int): int {
    if t == 0 then 0
    else
      var r, r' := After(MlqScheduler(), P, t - 1), After(MlqScheduler(), P, t);
      if r.None? || r'.None? then 0
      else Charge(Used(P, t - 1, x), x, false, Choice(MlqScheduler(), r.value).0, r'.value.st)
  }

  ghost function UsedAt(P: Table, t: nat): int -> int { x => Used(P, t, x) }

  /** The pids among the first `k` that arrive on `tick` and belong to level `lv`. */
  function Joining(ps: Table, tick: int, lv: int, k: nat): seq<int>
    requires k <= |ps|
  {
    if k == 0 then []
    else
      var l := Joining(ps, tick, lv, k - 1);
      if ps[k - 1].arrival == tick && ps[k - 1].queue == lv then l + [ps[k - 1].pid] else l
  }

  /** A level's line as tick `t` makes its choice: this tick's arrivals have joined it. */
  function LineAt(s: Sim<State>, t: int, lv: int): seq<int> {
    Line(s.st, lv) + Joining(s.procs, t, lv, |s.procs|)
  }

  /** After `used` ticks of it, is a slice of level `lv` over? On the bottom it never is. */
  predicate SliceEnds(lv: int, used: int) {
    (lv == 0 && used == 2) || (lv == 1 && used == 4)
  }

  /** A line after a tick on which its head ran, having had `used` ticks of its slice by then:
      without the head if that finished, with the head sent to the tail if its slice is over,
      and otherwise as it was. */
  function Served(l: seq<int>, lv: int, finished: bool, used: int): seq<int>
    requires l != []
  {
    if finished then l[1..] else if SliceEnds(lv, used) then l[1..] + [l[0]] else l
  }

  // ---------- Slices ----------

  lemma PickBalanced(a: State, used: int -> int)
    requires SliceOk(a, LEVEL_QUANTUM) && Balanced(a, LEVEL_QUANTUM, used)
    ensures Balanced(PickNext(a).0, LEVEL_QUANTUM, used)
  {
    if a.running == IDLE {
      TakeBalanced(a, LEVEL_QUANTUM, used);
    } else if 0 <= Highest(a.m) < a.level {
      PutBackBalanced(a, LEVEL_QUANTUM, used);
      TakeBalanced(PutBack(a), LEVEL_QUANTUM, used);
    }
  }

  lemma {:induction false} AdmitBalanced(s: State, ps: Table, tick: int, k: nat, used: int -> int)
    requires k <= |ps| && SliceOk(s, LEVEL_QUANTUM) && Balanced(s, LEVEL_QUANTUM, used)
    requires forall i :: 0 <= i < |ps| ==> 0 <= ps[i].queue <= 2
    requires forall i :: 0 <= i < |ps| && ps[i].arrival == tick ==> used(ps[i].pid) == 0
    ensures Balanced(Admit(MlqScheduler(), s, ps, tick, k), LEVEL_QUANTUM, used)
  {
    if k > 0 {
      AdmitBalanced(s, ps, tick, k - 1, used);
      Admits(s, ps, tick, k - 1);
      if ps[k - 1].arrival == tick {
        var a := Admit(MlqScheduler(), s, ps, tick, k - 1);
        PushTailBalanced(a, LEVEL_QUANTUM, used, ps[k - 1].queue, ps[k - 1].pid);
      }
    }
  }

  lemma TickBalanced(a: State, ps: Table, t: nat, b: State, used: int -> int, used': int -> int)
    requires MidRun(ps, t) && SliceOk(a, LEVEL_QUANTUM) && Lists(Held(a), ps, t) && Balanced(a, LEVEL_QUANTUM, used)
    requires b == PickNext(a).0 && PickedWell(b, b.running, LEVEL_QUANTUM, ps, t)
    requires forall x :: used'(x) == Charge(used(x), x, false, b, Settled(b, ps))
    ensures Balanced(Settled(b, ps), LEVEL_QUANTUM, used')
  {
    PickBalanced(a, used);
    HeldOnce(b, ps, t);
    if b.running == IDLE {
      IdleBalanced(b, LEVEL_QUANTUM, used, used');
    } else {
      SettleBalanced(b, Settled(b, ps), LEVEL_QUANTUM, b.level, used, used');
    }
  }

  lemma UsedSteps(P: Table, t: nat, s: Sim<State>, b: State, s': Sim<State>)
    requires After(MlqScheduler(), P, t) == Some(s) && After(MlqScheduler(), P, t + 1) == Some(s')
    requires b == Choice(MlqScheduler(), s).0
    ensures forall x :: UsedAt(P, t + 1)(x) == Charge(UsedAt(P, t)(x), x, false, b, s'.st)
  {
  }

  lemma NextBalanced(P: Table, t: nat, s: State, ps: Table, a: State, b: State, used: int -> int, used': int -> int)
    requires SameProcesses(P, ps) && MidRun(ps, t) && SliceOk(s, LEVEL_QUANTUM)
             && BalancedRun(P, s, LEVEL_QUANTUM, used, t)
    requires a == Admit(MlqScheduler(), s, ps, t, |ps|) && SliceOk(a, LEVEL_QUANTUM) && Lists(Held(a), ps, t)
    requires b == PickNext(a).0 && PickedWell(b, b.running, LEVEL_QUANTUM, ps, t)
    requires forall x :: used'(x) == Charge(used(x), x, false, b, Settled(b, ps))
    ensures BalancedRun(P, Settled(b, ps), LEVEL_QUANTUM, used', t + 1)
  {
    AdmitBalanced(s, ps, t, |ps|, used);
    TickBalanced(a, ps, t, b, used, used');
    StillUnused(P, t, ps, false, b, Settled(b, ps), used, used');
  }

  /** At every tick of every run, preemptions included: ticks used and ticks left of a slice add
      up to 2 on the top level and 4 on the middle one, for the running process and for a
      preempted head; everybody else queued there has used nothing. */
  lemma {:induction false} RunBalanced(P: Table, t: nat)
    requires Fresh(P)
    ensures After(MlqScheduler(), P, t).Some?
    ensures BalancedRun(P, After(MlqScheduler(), P, t).value.st, LEVEL_QUANTUM, UsedAt(P, t), t)
  {
    if t > 0 {
      RunBalanced(P, t - 1);
      var s, a, b, s' := OneTick(P, t - 1);
      UsedSteps(P, t - 1, s, b, s');
      NextBalanced(P, t - 1, s.st, s.procs, a, b, UsedAt(P, t - 1), UsedAt(P, t));
    }
  }

  // ---------- Lines ----------

  /** Arrivals join the line of their own level, and no other. */
  lemma {:induction false} AdmitLines(s: State, ps: Table, tick: int, k: nat, lv: int)
    requires k <= |ps| && 0 <= lv <= 2 && forall i :: 0 <= i < |ps| ==> 0 <= ps[i].queue <= 2
    ensures var a := Admit(MlqScheduler(), s, ps, tick, k);
            Line(a, lv) == Line(s, lv) + Joining(ps, tick, lv, k) && a.running == s.running && a.level == s.level
  {
    if k == 0 {
      assert Line(s, lv) + [] == Line(s, lv);
    } else {
      AdmitLines(s, ps, tick, k - 1, lv);
      var l, x := Line(s, lv) + Joining(ps, tick, lv, k - 1), ps[k - 1].pid;
      assert l + [x] == Line(s, lv) + (Joining(ps, tick, lv, k - 1) + [x]);
    }
  }

  /** A pick moves nobody within a line, and takes the head of the first line that has one. */
  lemma PickLines(a: State, lv: int)
    requires SliceOk(a, LEVEL_QUANTUM) && NotQueued(a, IDLE) && 0 <= lv <= 2
    ensures var b := PickNext(a).0;
            && Line(b, lv) == Line(a, lv)
            && (b.running != IDLE && b.level == lv ==> Line(a, lv) != [] && Line(a, lv)[0] == b.running)
            && (b.running != IDLE ==> 0 <= b.level <= 2)
            && (b.running == IDLE || lv < b.level ==> Line(a, lv) == [])
  {
  }

  /** The end of a tick serves the line of the process that ran. */
  lemma SettleLines(b: State, ps: Table, used: int, lv: int)
    requires b.running != IDLE && SliceOk(b, LEVEL_QUANTUM) && 0 <= lv <= 2
    requires LEVEL_QUANTUM.At(b.level) > 0 ==> used + b.left == LEVEL_QUANTUM.At(b.level)
    ensures Line(Settled(b, ps), lv)
         == if lv == b.level then Served(Line(b, lv), lv, Finishes(ps, b.running), used + 1) else Line(b, lv)
  {
    if lv == b.level { assert Line(b, lv)[1..] == b.m.q.At(lv); }
  }

  /** What one tick makes of level `lv`: its line, and the arrivals that join it, stay as they
      are unless it is the first level with a line; then its head runs and it is served. */
  ghost predicate LineFollows(P: Table, s: Sim<State>, s': Sim<State>, t: nat, lv: int)
    requires |s'.timeline| > t
  {
    var x, l := s'.timeline[t], LineAt(s, t, lv);
    if l != [] && forall k :: 0 <= k < lv ==> LineAt(s, t, k) == []
    then x == l[0] && Line(s'.st, lv) == Served(l, lv, Finishes(s.procs, x), Used(P, t, x) + 1)
    else Line(s'.st, lv) == l && x !in l
  }

  /** What a tick makes of the line `l` that level `lv` has when it makes its choice. */
  ghost predicate LineServed(l: seq<int>, ps: Table, b: State, s': State, used: int -> int, lv: int) {
    && (b.running != IDLE && b.level == lv ==>
          l != [] && l[0] == b.running && Line(s', lv) == Served(l, lv, Finishes(ps, b.running), used(b.running) + 1))
    && (b.running == IDLE || b.level != lv ==> Line(s', lv) == l && b.running !in l)
    && (b.running == IDLE || lv < b.level ==> l == [])
  }

  lemma ServeLines(ps: Table, t: nat, a: State, b: State, used: int -> int, lv: int)
    requires MidRun(ps, t) && SliceOk(a, LEVEL_QUANTUM) && Lists(Held(a), ps, t)
    requires Balanced(a, LEVEL_QUANTUM, used) && 0 <= lv <= 2
    requires b == PickNext(a).0 && PickedWell(b, b.running, LEVEL_QUANTUM, ps, t)
    ensures LineServed(Line(a, lv), ps, b, Settled(b, ps), used, lv)
  {
    HeldOnce(a, ps, t);
    PickLines(a, lv);
    PickBalanced(a, used);
    HeldOnce(b, ps, t);
    if b.running != IDLE { SettleLines(b, ps, used(b.running), lv); }
  }

  lemma TickLines(s: Sim<State>, t: nat, a: State, b: State, used: int -> int, lv: int)
    requires MidRun(s.procs, t) && a == Admit(MlqScheduler(), s.st, s.procs, t, |s.procs|) && SliceOk(a, LEVEL_QUANTUM)
    requires Lists(Held(a), s.procs, t) && Balanced(a, LEVEL_QUANTUM, used) && 0 <= lv <= 2
    requires b == PickNext(a).0 && PickedWell(b, b.running, LEVEL_QUANTUM, s.procs, t)
    ensures LineServed(LineAt(s, t, lv), s.procs, b, Settled(b, s.procs), used, lv)
  {
    AdmitLines(s.st, s.procs, t, |s.procs|, lv);
    ServeLines(s.procs, t, a, b, used, lv);
  }

  /** MLQ is a line per level, whatever happens above. On every tick of every run each line is
      kept in order, arrivals join at the end, and only the head of the first line moves: it
      leaves when it finishes, and goes to the tail of its own level exactly when this tick
      makes its slice 2 or 4. Being displaced costs neither place nor slice. */
  lemma LineRule(P: Table, t: nat, lv: int)
    requires Fresh(P) && 0 <= lv <= 2
    ensures After(MlqScheduler(), P, t).Some? && After(MlqScheduler(), P, t + 1).Some?
    ensures LineFollows(P, After(MlqScheduler(), P, t).value, After(MlqScheduler(), P, t + 1).value, t, lv)
  {
    RunBalanced(P, t);
    var s, a, b, s' := OneTick(P, t);
    AdmitBalanced(s.st, s.procs, t, |s.procs|, UsedAt(P, t));
    LineOnTick(P, s, s', t, a, b, UsedAt(P, t), lv);
  }

  lemma LineOnTick(P: Table, s: Sim<State>, s': Sim<State>, t: nat, a: State, b: State, used: int -> int, lv: int)
    requires MidRun(s.procs, t) && a == Admit(MlqScheduler(), s.st, s.procs, t, |s.procs|) && SliceOk(a, LEVEL_QUANTUM)
    requires Lists(Held(a), s.procs, t) && Balanced(a, LEVEL_QUANTUM, used) && 0 <= lv <= 2 && used == UsedAt(P, t)
    requires b == PickNext(a).0 && PickedWell(b, b.running, LEVEL_QUANTUM, s.procs, t)
    requires |s.timeline| == t && s'.timeline == s.timeline + [b.running] && s'.st == Settled(b, s.procs)
    ensures LineFollows(P, s, s', t, lv)
  {
    TickLines(s, t, a, b, used, lv);
    if b.running != IDLE && b.level == lv {
      forall k | 0 <= k < lv ensures LineAt(s, t, k) == [] { TickLines(s, t, a, b, used, k); }
    } else if b.running != IDLE && b.level < lv {
      TickLines(s, t, a, b, used, b.level);
      assert LineAt(s, t, b.level) != [];
    }
  }
}
