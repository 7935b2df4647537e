/** MLFQ serves by turns, as the timeline tells them. */
module MlfqDiscipline {
  import opened Processes
  import opened Engine
  import opened Timelines
  import opened ReadyLists
  import opened MultiQueue
  import opened Mlfq
  import opened Disciplines
  import opened TurnLines

  function Spent(s: State): Levels<int> { SpentOf(s, LEVEL_QUANTUM) }

  /** The state that tick `t` chooses from: this tick's arrivals admitted, and any boost made. */
  function Choosing(s: State, ps: Table, t: int): State {
    var a := Admitted(s, ps, t);
    if IsBoostTick(t) then Boost(a, ps, t) else a
  }

  /** The lines as tick `t` chooses are in the order that the timeline tells. */
  ghost predicate InOrder(P: Table, t: nat) {
    && After(MlfqScheduler(), P, t).Some?
    && var s := After(MlfqScheduler(), P, t).value;
       var c := Choosing(s.st, s.procs, t);
       LinesOk(MlfqTurns(), P, s.timeline, LinesOf(c), Spent(c))
  }

  /** A pick moves nobody within a line, and takes the head of the first line that has one. */
  lemma PickLine(c: State, lv: int)
    requires SliceOk(c, LEVEL_QUANTUM) && NotQueued(c, IDLE) && 0 <= lv <= 2
    ensures var b := Select(c).0;
            && Line(b, lv) == Line(c, lv)
            && (b.running != IDLE && b.level == lv ==> Line(c, lv) != [] && Line(c, lv)[0] == b.running)
            && (b.running != IDLE ==> 0 <= b.level <= 2)
            && (b.running == IDLE || lv < b.level ==> Line(c, lv) == [])
  {
  }

  lemma PickSpends(c: State, lv: int)
    requires SliceOk(c, LEVEL_QUANTUM) && NotQueued(c, IDLE) && 0 <= lv <= 2
    ensures SpentAt(Select(c).0, LEVEL_QUANTUM, lv) == SpentAt(c, LEVEL_QUANTUM, lv)
  {
    if c.running == IDLE {
      TakeSpends(c, LEVEL_QUANTUM, lv);
    } else if 0 <= Highest(c.m) < c.level {
      PutBackSpends(c, LEVEL_QUANTUM, lv);
      TakeSpends(PutBack(c), LEVEL_QUANTUM, lv);
    }
  }

  lemma PickLines(c: State)
    requires SliceOk(c, LEVEL_QUANTUM) && NotQueued(c, IDLE)
    ensures var b := Select(c).0;
            LinesOf(b) == LinesOf(c) && Spent(b) == Spent(c) && HeadsFirst(LinesOf(c), b.running, b.level)
  {
    PickLine(c, 0);
    PickLine(c, 1);
    PickLine(c, 2);
    PickSpends(c, 0);
    PickSpends(c, 1);
    PickSpends(c, 2);
  }

  /** The end of a tick moves the running process as the rule for turns says. */
  lemma SettleLines(b: State, ps: Table)
    requires b.running != IDLE && SliceOk(b, LEVEL_QUANTUM)
    ensures var fin, full := Finishes(ps, b.running), Full(MlfqTurns(), b.level, Spent(b).At(b.level));
            && LinesOf(b).At(b.level) != []
            && LinesOf(Settled(b, ps)) == Moved(MlfqTurns(), LinesOf(b), b.level, fin, full)
            && Spent(Settled(b, ps)) == SpentNext(MlfqTurns(), Spent(b), b.level, fin, full)
  {
    var l := LinesOf(b).At(b.level);
    assert l == [b.running] + b.m.q.At(b.level) && l[1..] == b.m.q.At(b.level);
    assert forall k :: 0 <= k <= 2 && k != b.level ==> Line(b, k) == b.m.q.At(k);
    assert LinesOf(b).With(b.level, l[1..]) == b.m.q;
    var s' := Settled(b, ps);
    assert s'.running == IDLE ==> Line(s', 0) == s'.m.q.l0 && Line(s', 1) == s'.m.q.l1 && Line(s', 2) == s'.m.q.l2;
  }

  lemma LinesAfter(P: Table, tl: seq<int>, ps: Table, c: State, b: State)
    requires Fresh(P) && MidRun(ps, |tl|) && SliceOk(c, LEVEL_QUANTUM) && Lists(Held(c), ps, |tl|)
    requires LinesOk(MlfqTurns(), P, tl, LinesOf(c), Spent(c)) && !MlfqTurns().afresh(|tl| + 1)
    requires b == Select(c).0 && PickedWell(b, b.running, LEVEL_QUANTUM, ps, |tl|)
    ensures var s' := Settled(b, ps);
            && LinesOk(MlfqTurns(), P, tl + [b.running], LinesOf(s'), Spent(s'))
            && AllLinesEarlier(P, |tl| + 1, LinesOf(s'))
  {
    HeldOnce(c, ps, |tl|);
    PickLines(c);
    if b.running == IDLE {
      IdleKeeps(MlfqTurns(), P, tl, LinesOf(b), Spent(b));
    } else {
      RunningOnce(b, ps, |tl|);
      SettleLines(b, ps);
      TickKeeps(MlfqTurns(), P, tl, LinesOf(b), Spent(b), b.level, Finishes(ps, b.running));
    }
  }

  /** Arrivals join the top line. */
  lemma AdmittedLines(s: State, ps: Table, t: int)
    ensures var a := Admitted(s, ps, t);
            LinesOf(a) == Joined(LinesOf(s), Levels(Arriving(ps, t), [], [])) && Spent(a) == Spent(s)
  {
    var a := Admitted(s, ps, t);
    assert Line(a, 0) == Line(s, 0) + Arriving(ps, t);
    assert Line(a, 1) == Line(s, 1) + [] && Line(a, 2) == Line(s, 2) + [];
  }

  lemma AdmitLines(P: Table, tl: seq<int>, ps: Table, s: State)
    requires Fresh(P) && SameProcesses(P, ps) && LinesOk(MlfqTurns(), P, tl, LinesOf(s), Spent(s))
    requires LinesOf(s) == Levels([], [], [])
             || (AllLinesEarlier(P, |tl|, LinesOf(s)) && |tl| > 0 && !MlfqTurns().afresh(|tl|))
    ensures var a := Admitted(s, ps, |tl|); LinesOk(MlfqTurns(), P, tl, LinesOf(a), Spent(a))
  {
    AdmittedLines(s, ps, |tl|);
    ArrivingJoin(MlfqTurns(), P, ps, |tl|, |P|);
    JoinsKeep(MlfqTurns(), P, tl, LinesOf(s), Spent(s), Levels(Arriving(ps, |tl|), [], []));
  }

  // ---------- Boosts ----------

  /** The pids other than `running` among the first `k` that are arrived and unfinished. */
  ghost predicate OthersOk(P: Table, ps: Table, t: int, running: int, l: seq<int>, k: nat)
    requires |ps| == |P|
  {
    && InTableOrder(P, l) && InFirst(P, l, k) && running !in l
    && forall p :: 0 <= p < |l| ==> HasArrived(P, t, l[p]) && Active(ps[IndexOf(P, l[p])], t)
  }

  lemma OthersNext(P: Table, ps: Table, t: int, running: int, l: seq<int>, k: nat)
    requires Fresh(P) && SameProcesses(P, ps) && k < |P| && OthersOk(P, ps, t, running, l, k)
    requires Active(ps[k], t) && ps[k].pid != running
    ensures OthersOk(P, ps, t, running, l + [P[k].pid], k + 1)
  {
    IndexOfOwn(P, k);
    OrderNext(P, l, k);
  }

  lemma {:induction false} OthersInTableOrder(P: Table, ps: Table, t: int, running: int, k: nat)
    requires Fresh(P) && SameProcesses(P, ps) && k <= |P|
    ensures OthersOk(P, ps, t, running, Others(ps, t, running, k), k)
  {
    if k > 0 {
      OthersInTableOrder(P, ps, t, running, k - 1);
      if Active(ps[k - 1], t) && ps[k - 1].pid != running {
        OthersNext(P, ps, t, running, Others(ps, t, running, k - 1), k - 1);
      }
    }
  }

  /** Whoever ran and did not finish is in the middle of its turn exactly when it is still the
      running process. */
  lemma MidTurnIff(P: Table, tl: seq<int>, ps: Table, b: State)
    requires Fresh(P) && SliceOk(b, LEVEL_QUANTUM) && b.running != IDLE && Runnable(ps, b.running, |tl|)
    requires LinesOk(MlfqTurns(), P, tl, LinesOf(b), Spent(b)) && !Finishes(ps, b.running)
    ensures Settled(b, ps).running == b.running <==> InMidTurn(MlfqTurns(), P, tl, b.running)
    ensures Settled(b, ps).running != b.running ==> Settled(b, ps).running == IDLE
  {
    var l := LinesOf(b).At(b.level);
    assert l == [b.running] + b.m.q.At(b.level);
    assert LineOk(MlfqTurns(), P, tl, l, b.level, Spent(b).At(b.level));
    assert PlaceOk(MlfqTurns(), P, tl, l, b.level, Spent(b).At(b.level), 0);
  }

  lemma BoostLines(P: Table, tl: seq<int>, ps: Table, b: State, after: Table)
    requires Fresh(P) && MidRun(ps, |tl|) && SliceOk(b, LEVEL_QUANTUM) && MlfqTurns().afresh(|tl| + 1)
    requires b.running == IDLE || Runnable(ps, b.running, |tl|)
    requires LinesOk(MlfqTurns(), P, tl, LinesOf(b), Spent(b))
    requires after == Execute(ps, b.running, |tl|) && SameProcesses(P, ps) && SameProcesses(P, after)
    ensures var c := Boost(Admitted(Settled(b, ps), after, |tl| + 1), after, |tl| + 1);
            LinesOk(MlfqTurns(), P, tl + [b.running], LinesOf(c), Spent(c))
  {
    var s, t := Settled(b, ps), |tl| + 1;
    var others := Others(after, t, s.running, |after|);
    OthersInTableOrder(P, after, t, s.running, |P|);
    if b.running != IDLE {
      SameIndex(P, ps, b.running);
      if !Finishes(ps, b.running) { MidTurnIff(P, tl, ps, b); }
    }
    assert Finishes(ps, b.running) ==> b.running !in others;
    AfreshKeeps(MlfqTurns(), P, tl, b.running, OnCpu(s.running), others);
    BoostedLines(s, after, t);
  }

  /** A boost leaves one line, with nothing used. */
  lemma BoostedLines(s: State, ps: Table, t: int)
    ensures var c := Boost(Admitted(s, ps, t), ps, t);
            && LinesOf(c) == Levels(OnCpu(s.running) + Others(ps, t, s.running, |ps|), [], [])
            && Spent(c) == Levels(0, 0, 0)
  {
    var c := Boost(Admitted(s, ps, t), ps, t);
    assert Line(c, 0) == OnCpu(s.running) + Others(ps, t, s.running, |ps|);
  }

  // ---------- Runs ----------

  lemma ChoosingKeeps(s: State, ps: Table, t: nat) returns (c: State)
    requires MidRun(ps, t)
    requires var a := Admitted(s, ps, t); SliceOk(a, LEVEL_QUANTUM) && Lists(Held(a), ps, t)
    ensures c == Choosing(s, ps, t) && SliceOk(c, LEVEL_QUANTUM) && Lists(Held(c), ps, t)
    ensures PickNext(Admitted(s, ps, t), ps, t) == Select(c)
  {
    c := Choosing(s, ps, t);
    if IsBoostTick(t) { BoostKeeps(Admitted(s, ps, t), ps, t); }
  }

  lemma ChoiceServes(P: Table, t: nat, s: Sim<State>, c: State, b: State)
    requires Fresh(P) && |s.timeline| == t && PlayedTable(P, s.timeline, t, s.procs) && MidRun(s.procs, t)
    requires SliceOk(c, LEVEL_QUANTUM) && Lists(Held(c), s.procs, t)
    requires b == Select(c).0 && PickedWell(b, b.running, LEVEL_QUANTUM, s.procs, t)
    requires LinesOk(MlfqTurns(), P, s.timeline, LinesOf(c), Spent(c))
    ensures Serves(TurnRank(MlfqTurns()), P, s.timeline, b.running)
  {
    HeldOnce(c, s.procs, t);
    PickLines(c);
    StateServes(MlfqTurns(), LEVEL_QUANTUM, P, s.timeline, s.procs, c, b.running, b.level);
  }

  /** A tick, from choice to choice. */
  lemma TickInOrder(P: Table, t: nat, s: Sim<State>, c: State, b: State, s': Sim<State>)
    requires Fresh(P) && |s.timeline| == t && SameProcesses(P, s.procs) && MidRun(s.procs, t)
    requires SliceOk(c, LEVEL_QUANTUM) && Lists(Held(c), s.procs, t) && SameProcesses(P, s'.procs)
    requires b == Select(c).0 && PickedWell(b, b.running, LEVEL_QUANTUM, s.procs, t)
    requires s'.st == Settled(b, s.procs) && s'.timeline == s.timeline + [b.running]
    requires s'.procs == Execute(s.procs, b.running, t)
    requires LinesOk(MlfqTurns(), P, s.timeline, LinesOf(c), Spent(c))
    ensures var c' := Choosing(s'.st, s'.procs, t + 1); LinesOk(MlfqTurns(), P, s'.timeline, LinesOf(c'), Spent(c'))
  {
    if IsBoostTick(t + 1) {
      HeldOnce(c, s.procs, t);
      PickLines(c);
      BoostLines(P, s.timeline, s.procs, b, s'.procs);
    } else {
      LinesAfter(P, s.timeline, s.procs, c, b);
      AdmitLines(P, s'.timeline, s'.procs, s'.st);
    }
  }

  lemma Lawful(P: Table, t: nat, s: Sim<State>)
    requires Fresh(P) && After(MlfqScheduler(), P, t) == Some(s)
    ensures PlayedTable(P, s.timeline, t, s.procs)
  {
    Ledger(MlfqScheduler(), P, t);
  }

  lemma NextInOrder(P: Table, t: nat)
    requires Fresh(P) && InOrder(P, t)
    ensures InOrder(P, t + 1)
    ensures After(MlfqScheduler(), P, t).Some? && After(MlfqScheduler(), P, t + 1).Some?
    ensures var s, s' := After(MlfqScheduler(), P, t).value, After(MlfqScheduler(), P, t + 1).value;
            Serves(TurnRank(MlfqTurns()), P, s.timeline, s'.timeline[t])
  {
    var s, b, s' := OneTick(P, t);
    Lawful(P, t, s);
    var r := StateAt(P, t + 1);
    var c := ChoosingKeeps(s.st, s.procs, t);
    ChoiceServes(P, t, s, c, b);
    TickInOrder(P, t, s, c, b, s');
  }

  lemma {:induction false} MlfqInOrder(P: Table, t: nat)
    requires Fresh(P)
    ensures InOrder(P, t) && ObeysFor(MlfqScheduler(), P, TurnRank(MlfqTurns()), t)
  {
    if t == 0 {
      AdmitLines(P, [], P, INIT);
    } else {
      MlfqInOrder(P, t - 1);
      NextInOrder(P, t - 1);
      ObeysNext(MlfqScheduler(), P, TurnRank(MlfqTurns()), t - 1);
    }
  }

  /** MLFQ: on every tick of every run the CPU goes to the highest level with anybody to run;
      there, to whoever has begun a turn, displaced since or not, and otherwise to whoever has
      been in line longest. A full turn of 2, 4 or 8 ticks leads one level down, and every
      fiftieth tick all start afresh at the top. */
  lemma MlfqObeys(P: Table)
    requires Indexable(P)
    ensures Obeys(MlfqScheduler(), P, TurnRank(MlfqTurns()))
  {
    forall t: nat ensures ObeysFor(MlfqScheduler(), P, TurnRank(MlfqTurns()), t) { MlfqInOrder(P, t); }
  }
}
