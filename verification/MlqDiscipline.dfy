/** MLQ serves by turns, as the timeline tells them. */
module MlqDiscipline {
  import opened Processes
  import opened Engine
  import opened Timelines
  import opened ReadyLists
  import opened MultiQueue
  import opened Mlq
  import opened Disciplines
  import opened TurnLines
  import MlqSlices

  function Spent(s: State): Levels<int> { SpentOf(s, LEVEL_QUANTUM) }

  /** The lines as tick `t` chooses are in the order that the timeline tells. */
  ghost predicate InOrder(P: Table, t: nat) {
    && After(MlqScheduler(), P, t).Some?
    && var s := After(MlqScheduler(), P, t).value;
       var a := Admit(MlqScheduler(), s.st, s.procs, t, |s.procs|);
       LinesOk(MlqTurns(), P, s.timeline, LinesOf(a), Spent(a))
  }

  /** A pick takes the head of the first line, and moves nobody in line. */
  lemma PickLines(a: State)
    requires SliceOk(a, LEVEL_QUANTUM) && NotQueued(a, IDLE)
    ensures var b := PickNext(a).0;
            LinesOf(b) == LinesOf(a) && Spent(b) == Spent(a) && HeadsFirst(LinesOf(a), b.running, b.level)
  {
    MlqSlices.PickLines(a, 0);
    MlqSlices.PickLines(a, 1);
    MlqSlices.PickLines(a, 2);
    PickSpends(a, 0);
    PickSpends(a, 1);
    PickSpends(a, 2);
  }

  lemma PickSpends(a: State, lv: int)
    requires SliceOk(a, LEVEL_QUANTUM) && NotQueued(a, IDLE) && 0 <= lv <= 2
    ensures SpentAt(PickNext(a).0, LEVEL_QUANTUM, lv) == SpentAt(a, LEVEL_QUANTUM, lv)
  {
    if a.running == IDLE {
      TakeSpends(a, LEVEL_QUANTUM, lv);
    } else if 0 <= Highest(a.m) < a.level {
      PutBackSpends(a, LEVEL_QUANTUM, lv);
      TakeSpends(PutBack(a), LEVEL_QUANTUM, lv);
    }
  }

  /** The end of a tick moves the running process as the rule for turns says. */
  lemma SettleLines(b: State, ps: Table)
    requires b.running != IDLE && SliceOk(b, LEVEL_QUANTUM)
    ensures var fin, full := Finishes(ps, b.running), Full(MlqTurns(), b.level, Spent(b).At(b.level));
            && LinesOf(b).At(b.level) != []
            && LinesOf(Settled(b, ps)) == Moved(MlqTurns(), LinesOf(b), b.level, fin, full)
            && Spent(Settled(b, ps)) == SpentNext(MlqTurns(), Spent(b), b.level, fin, full)
  {
    var l := LinesOf(b).At(b.level);
    assert l == [b.running] + b.m.q.At(b.level) && l[1..] == b.m.q.At(b.level);
    var s' := Settled(b, ps);
    assert s'.running == IDLE ==> Line(s', 0) == s'.m.q.l0 && Line(s', 1) == s'.m.q.l1 && Line(s', 2) == s'.m.q.l2;
  }

  lemma LinesAfter(P: Table, tl: seq<int>, ps: Table, a: State, b: State)
    requires Fresh(P) && MidRun(ps, |tl|) && SliceOk(a, LEVEL_QUANTUM) && Lists(Held(a), ps, |tl|)
    requires LinesOk(MlqTurns(), P, tl, LinesOf(a), Spent(a))
    requires b == PickNext(a).0 && PickedWell(b, b.running, LEVEL_QUANTUM, ps, |tl|)
    ensures var s' := Settled(b, ps);
            && LinesOk(MlqTurns(), P, tl + [b.running], LinesOf(s'), Spent(s'))
            && AllLinesEarlier(P, |tl| + 1, LinesOf(s'))
  {
    HeldOnce(a, ps, |tl|);
    PickLines(a);
    if b.running == IDLE {
      IdleKeeps(MlqTurns(), P, tl, LinesOf(b), Spent(b));
    } else {
      RunningOnce(b, ps, |tl|);
      SettleLines(b, ps);
      TickKeeps(MlqTurns(), P, tl, LinesOf(b), Spent(b), b.level, Finishes(ps, b.running));
    }
  }

  /** Those who arrive on tick `t`, by level. */
  function Joins(ps: Table, t: int): Levels<seq<int>> {
    Levels(MlqSlices.Joining(ps, t, 0, |ps|), MlqSlices.Joining(ps, t, 1, |ps|), MlqSlices.Joining(ps, t, 2, |ps|))
  }

  lemma {:induction false} JoiningOk(P: Table, ps: Table, t: int, lv: int, k: nat)
    requires Fresh(P) && SameProcesses(P, ps) && k <= |P|
    ensures var js := MlqSlices.Joining(ps, t, lv, k); JoinOk(MlqTurns(), P, t, js, lv) && InFirst(P, js, k)
  {
    if k > 0 {
      JoiningOk(P, ps, t, lv, k - 1);
      if ps[k - 1].arrival == t && ps[k - 1].queue == lv {
        JoinNext(MlqTurns(), P, t, MlqSlices.Joining(ps, t, lv, k - 1), lv, k - 1);
      }
    }
  }

  lemma {:induction false} AdmitSpends(s: State, ps: Table, tick: int, k: nat)
    requires k <= |ps|
    ensures var a := Admit(MlqScheduler(), s, ps, tick, k);
            a.m.saved == s.m.saved && a.left == s.left && a.running == s.running && a.level == s.level
  {
    if k > 0 { AdmitSpends(s, ps, tick, k - 1); }
  }

  lemma AdmitLine(P: Table, t: int, ps: Table, s: State, a: State, lv: int)
    requires Fresh(P) && SameProcesses(P, ps) && a == Admit(MlqScheduler(), s, ps, t, |ps|) && 0 <= lv <= 2
    ensures Line(a, lv) == Line(s, lv) + Joins(ps, t).At(lv) && JoinOk(MlqTurns(), P, t, Joins(ps, t).At(lv), lv)
    ensures SpentAt(a, LEVEL_QUANTUM, lv) == SpentAt(s, LEVEL_QUANTUM, lv)
  {
    MlqSlices.AdmitLines(s, ps, t, |ps|, lv);
    JoiningOk(P, ps, t, lv, |P|);
    AdmitSpends(s, ps, t, |ps|);
  }

  lemma AdmitLines(P: Table, tl: seq<int>, ps: Table, s: State, a: State)
    requires Fresh(P) && SameProcesses(P, ps) && LinesOk(MlqTurns(), P, tl, LinesOf(s), Spent(s))
    requires LinesOf(s) == Levels([], [], []) || (AllLinesEarlier(P, |tl|, LinesOf(s)) && |tl| > 0)
    requires a == Admit(MlqScheduler(), s, ps, |tl|, |ps|)
    ensures LinesOk(MlqTurns(), P, tl, LinesOf(a), Spent(a))
  {
    AdmitLine(P, |tl|, ps, s, a, 0);
    AdmitLine(P, |tl|, ps, s, a, 1);
    AdmitLine(P, |tl|, ps, s, a, 2);
    assert LinesOf(a) == Joined(LinesOf(s), Joins(ps, |tl|)) && Spent(a) == Spent(s);
    JoinsKeep(MlqTurns(), P, tl, LinesOf(s), Spent(s), Joins(ps, |tl|));
  }

  lemma ChoiceServes(P: Table, t: nat, s: Sim<State>, a: State, b: State)
    requires Fresh(P) && |s.timeline| == t && PlayedTable(P, s.timeline, t, s.procs) && MidRun(s.procs, t)
    requires SliceOk(a, LEVEL_QUANTUM) && Lists(Held(a), s.procs, t)
    requires b == PickNext(a).0 && PickedWell(b, b.running, LEVEL_QUANTUM, s.procs, t)
    requires LinesOk(MlqTurns(), P, s.timeline, LinesOf(a), Spent(a))
    ensures Serves(TurnRank(MlqTurns()), P, s.timeline, b.running)
  {
    HeldOnce(a, s.procs, t);
    PickLines(a);
    StateServes(MlqTurns(), LEVEL_QUANTUM, P, s.timeline, s.procs, a, b.running, b.level);
  }

  lemma Lawful(P: Table, t: nat, s: Sim<State>)
    requires Fresh(P) && After(MlqScheduler(), P, t) == Some(s)
    ensures PlayedTable(P, s.timeline, t, s.procs)
  {
    Ledger(MlqScheduler(), P, t);
  }

  lemma OrderAt(P: Table, t: nat, s: Sim<State>, a: State)
    requires After(MlqScheduler(), P, t) == Some(s) && a == Admit(MlqScheduler(), s.st, s.procs, t, |s.procs|)
    ensures InOrder(P, t) <==> LinesOk(MlqTurns(), P, s.timeline, LinesOf(a), Spent(a))
  {
  }

  /** From the choice to the end of the tick. */
  lemma OrderAfter(P: Table, t: nat) returns (s: Sim<State>, s': Sim<State>)
    requires Fresh(P) && InOrder(P, t)
    ensures After(MlqScheduler(), P, t) == Some(s) && After(MlqScheduler(), P, t + 1) == Some(s')
    ensures |s'.timeline| == t + 1 && Serves(TurnRank(MlqTurns()), P, s.timeline, s'.timeline[t])
    ensures LinesOk(MlqTurns(), P, s'.timeline, LinesOf(s'.st), Spent(s'.st))
    ensures AllLinesEarlier(P, t + 1, LinesOf(s'.st))
  {
    var a, b;
    s, a, b, s' := OneTick(P, t);
    Lawful(P, t, s);
    OrderAt(P, t, s, a);
    ChoiceServes(P, t, s, a, b);
    LinesAfter(P, s.timeline, s.procs, a, b);
  }

  /** A tick, from choice to choice. */
  lemma NextInOrder(P: Table, t: nat)
    requires Fresh(P) && InOrder(P, t)
    ensures InOrder(P, t + 1)
    ensures After(MlqScheduler(), P, t).Some? && After(MlqScheduler(), P, t + 1).Some?
    ensures var s, s' := After(MlqScheduler(), P, t).value, After(MlqScheduler(), P, t + 1).value;
            Serves(TurnRank(MlqTurns()), P, s.timeline, s'.timeline[t])
  {
    var s, s' := OrderAfter(P, t);
    var r := StateAt(P, t + 1);
    var a' := Admit(MlqScheduler(), s'.st, s'.procs, t + 1, |s'.procs|);
    AdmitLines(P, s'.timeline, s'.procs, s'.st, a');
    OrderAt(P, t + 1, s', a');
  }

  lemma {:induction false} MlqInOrder(P: Table, t: nat)
    requires Fresh(P)
    ensures InOrder(P, t) && ObeysFor(MlqScheduler(), P, TurnRank(MlqTurns()), t)
  {
    if t == 0 {
      AdmitLines(P, [], P, INIT, Admit(MlqScheduler(), INIT, P, 0, |P|));
    } else {
      MlqInOrder(P, t - 1);
      NextInOrder(P, t - 1);
      ObeysNext(MlqScheduler(), P, TurnRank(MlqTurns()), t - 1);
    }
  }

  /** MLQ: on every tick of every run the CPU goes to the highest level with anybody to run;
      there, to whoever has begun a turn, displaced since or not, and otherwise to whoever has
      been in line longest. Turns are of 2 and 4 ticks; at the bottom they last to completion. */
  lemma MlqObeys(P: Table)
    requires Fresh(P)
    ensures Obeys(MlqScheduler(), P, TurnRank(MlqTurns()))
  {
    forall t: nat ensures ObeysFor(MlqScheduler(), P, TurnRank(MlqTurns()), t) { MlqInOrder(P, t); }
  }
}
