/** Round Robin serves by turns of its quantum. */
module RrDiscipline {
  import opened Processes
  import opened Engine
  import opened Timelines
  import opened ReadyLists
  import opened RoundRobin
  import opened Disciplines
  import opened TurnLines
  import MultiQueue
  import RrWaiting

  /** The one line that Round Robin keeps, as the first of three. */
  function LinesOf(s: State): MultiQueue.Levels<seq<int>> {
    MultiQueue.Levels(OnCpu(s.running) + s.queue, [], [])
  }

  function SpentOf(s: State): MultiQueue.Levels<int> {
    MultiQueue.Levels(if s.running != IDLE then s.quantum - s.left else 0, 0, 0)
  }

  /** The line as tick `t` chooses is in the order that the timeline tells. */
  ghost predicate InOrder(q: int, P: Table, t: nat) {
    && After(Rr(q), P, t).Some?
    && var s := After(Rr(q), P, t).value;
       var a := Admitted(s.st, s.procs, t);
       LinesOk(RrTurns(q), P, s.timeline, LinesOf(a), SpentOf(a))
  }

  /** A pick moves nobody in line. */
  lemma PickLines(a: State)
    requires a.quantum > 0 && (a.running != IDLE ==> 1 <= a.left <= a.quantum) && IDLE !in a.queue
    ensures var b := PickNext(a).0;
            && PickNext(a).1 == b.running && LinesOf(b) == LinesOf(a) && SpentOf(b) == SpentOf(a)
            && (b.running == IDLE <==> LinesOf(a).l0 == []) && (b.running != IDLE ==> LinesOf(a).l0[0] == b.running)
  {
    assert LinesOf(PickNext(a).0).l0 == LinesOf(a).l0;
  }

  /** The end of a tick moves the head of the line as the rule for turns says. */
  lemma SettleLines(q: int, b: State, ps: Table)
    requires b.running != IDLE && b.quantum == (if q > 0 then q else 4) && 1 <= b.left <= b.quantum
    ensures var turns, spent, fin := RrTurns(q), SpentOf(b), Finishes(ps, b.running);
            var full := Full(turns, 0, spent.l0);
            && LinesOf(Settled(b, ps)) == Moved(turns, LinesOf(b), 0, fin, full)
            && SpentOf(Settled(b, ps)) == SpentNext(turns, spent, 0, fin, full)
  {
    var s', rest := Settled(b, ps), LinesOf(b).l0[1..];
    assert rest == b.queue;
    assert LinesOf(s').l0 == if s'.running != IDLE then LinesOf(b).l0
                             else if Finishes(ps, b.running) then rest else rest + [b.running];
  }

  lemma ServesLine(q: int, P: Table, tl: seq<int>, ps: Table, a: State)
    requires Fresh(P) && PlayedTable(P, tl, |tl|, ps) && MidRun(ps, |tl|)
    requires Lists(OnCpu(a.running) + a.queue, ps, |tl|) && LinesOk(RrTurns(q), P, tl, LinesOf(a), SpentOf(a))
    ensures var l := LinesOf(a).l0; Serves(TurnRank(RrTurns(q)), P, tl, if l == [] then IDLE else l[0])
  {
    var l := LinesOf(a).l0;
    PlayedActive(P, tl, ps);
    if l == [] {
      ListsNobody(ps, |tl|);
      ServesNobody(TurnRank(RrTurns(q)), P, tl, ps);
    } else {
      ListsHead(l, ps, |tl|);
      SameIndex(P, ps, l[0]);
      forall j | 0 <= j < |P| && ActiveAt(P, tl, j, |tl|) ensures P[j].pid in l {
        ListsIff(l, ps, |tl|, P[j].pid);
        IndexOfOwn(ps, j);
      }
      HeadServes(RrTurns(q), P, tl, LinesOf(a), SpentOf(a), 0);
    }
  }

  lemma DistinctLine(l: seq<int>, ps: Table, t: int)
    requires Sorted(ps) && Lists(l, ps, t)
    ensures Distinct(l)
  {
    forall p, r | 0 <= p < r < |l| ensures l[p] != l[r] { ListsDistinct(l, ps, t, p, r); }
  }

  /** The lines after a tick, before the next one's arrivals. */
  lemma LinesAfter(q: int, P: Table, tl: seq<int>, ps: Table, a: State, b: State)
    requires Fresh(P) && MidRun(ps, |tl|) && Lists(OnCpu(a.running) + a.queue, ps, |tl|)
    requires LinesOk(RrTurns(q), P, tl, LinesOf(a), SpentOf(a))
    requires a.quantum == (if q > 0 then q else 4) && (a.running != IDLE ==> 1 <= a.left <= a.quantum)
    requires b == PickNext(a).0
    ensures var s' := Settled(b, ps);
            && LinesOk(RrTurns(q), P, tl + [b.running], LinesOf(s'), SpentOf(s'))
            && AllLinesEarlier(P, |tl| + 1, LinesOf(s'))
  {
    RrWaiting.QueuedApart(a, ps, |tl|);
    PickLines(a);
    DistinctLine(OnCpu(a.running) + a.queue, ps, |tl|);
    if b.running == IDLE {
      IdleKeeps(RrTurns(q), P, tl, LinesOf(b), SpentOf(b));
    } else {
      SettleLines(q, b, ps);
      TickKeeps(RrTurns(q), P, tl, LinesOf(b), SpentOf(b), 0, Finishes(ps, b.running));
    }
  }

  /** Arrivals join the line. */
  lemma AdmittedLines(s: State, ps: Table, t: int)
    ensures var a := Admitted(s, ps, t);
            && LinesOf(a) == Joined(LinesOf(s), MultiQueue.Levels(Arriving(ps, t), [], []))
            && SpentOf(a) == SpentOf(s)
  {
    var none: seq<int> := [];
    assert LinesOf(Admitted(s, ps, t)).l0 == LinesOf(s).l0 + Arriving(ps, t) && none + none == none;
  }

  lemma AdmitLines(q: int, P: Table, tl: seq<int>, ps: Table, s: State)
    requires Fresh(P) && SameProcesses(P, ps) && LinesOk(RrTurns(q), P, tl, LinesOf(s), SpentOf(s))
    requires LinesOf(s).l0 == [] || (AllLinesEarlier(P, |tl|, LinesOf(s)) && |tl| > 0)
    ensures var a := Admitted(s, ps, |tl|); LinesOk(RrTurns(q), P, tl, LinesOf(a), SpentOf(a))
  {
    AdmittedLines(s, ps, |tl|);
    ArrivingJoin(RrTurns(q), P, ps, |tl|, |P|);
    JoinsKeep(RrTurns(q), P, tl, LinesOf(s), SpentOf(s), MultiQueue.Levels(Arriving(ps, |tl|), [], []));
  }

  /** A tick, from choice to choice. */
  lemma TickInOrder(q: int, P: Table, t: nat, s: Sim<State>, a: State, b: State, s': Sim<State>)
    requires Fresh(P) && |s.timeline| == t && PlayedTable(P, s.timeline, t, s.procs) && MidRun(s.procs, t)
    requires Lists(OnCpu(a.running) + a.queue, s.procs, t) && a.quantum == RrWaiting.Quantum(q)
    requires a.running != IDLE ==> 1 <= a.left <= a.quantum
    requires b == PickNext(a).0 && s'.st == Settled(b, s.procs) && s'.timeline == s.timeline + [b.running]
    requires SameProcesses(P, s'.procs) && LinesOk(RrTurns(q), P, s.timeline, LinesOf(a), SpentOf(a))
    ensures Serves(TurnRank(RrTurns(q)), P, s.timeline, b.running)
    ensures var a' := Admitted(s'.st, s'.procs, t + 1); LinesOk(RrTurns(q), P, s'.timeline, LinesOf(a'), SpentOf(a'))
  {
    RrWaiting.QueuedApart(a, s.procs, t);
    PickLines(a);
    ServesLine(q, P, s.timeline, s.procs, a);
    LinesAfter(q, P, s.timeline, s.procs, a, b);
    AdmitLines(q, P, s'.timeline, s'.procs, s'.st);
  }

  lemma RunTick(q: int, P: Table, t: nat) returns (s: Sim<State>, a: State, b: State, s': Sim<State>)
    requires Fresh(P)
    ensures After(Rr(q), P, t) == Some(s) && After(Rr(q), P, t + 1) == Some(s') && |s.timeline| == t
    ensures MidRun(s.procs, t) && PlayedTable(P, s.timeline, t, s.procs) && SameProcesses(P, s'.procs)
    ensures a == Admitted(s.st, s.procs, t) && Lists(OnCpu(a.running) + a.queue, s.procs, t)
    ensures a.quantum == RrWaiting.Quantum(q) && (a.running != IDLE ==> 1 <= a.left <= a.quantum)
    ensures b == PickNext(a).0 && s'.st == Settled(b, s.procs) && s'.timeline == s.timeline + [b.running]
  {
    s, a, b, s' := OneTick(q, P, t);
    RrWaiting.QuantumIs(q, P, t);
    TimelineNext(q, P, t, s, s');
    SameTable(q, P, t + 1, s');
  }

  lemma SameTable(q: int, P: Table, t: nat, s: Sim<State>)
    requires Fresh(P) && After(Rr(q), P, t) == Some(s)
    ensures SameProcesses(P, s.procs)
  {
    Ledger(Rr(q), P, t);
    PlayedSame(P, s.timeline, t, s.procs);
  }

  lemma ChoiceIs(q: int, s: Sim<State>, t: nat)
    requires |s.timeline| == t && MidRun(s.procs, t) && Inv(s.st, s.procs, t)
    ensures var b := PickNext(Admitted(s.st, s.procs, t)).0; Choice(Rr(q), s) == (b, b.running)
  {
    var a, b := TickPicks(q, s, t);
  }

  lemma TimelineNext(q: int, P: Table, t: nat, s: Sim<State>, s': Sim<State>)
    requires After(Rr(q), P, t) == Some(s) && After(Rr(q), P, t + 1) == Some(s')
    requires MidRun(s.procs, t) && Inv(s.st, s.procs, t)
    ensures s'.timeline == s.timeline + [PickNext(Admitted(s.st, s.procs, t)).0.running]
  {
    Stepwise(Rr(q), P, t, s, s');
    ChoiceIs(q, s, t);
    var n := StepShape(Rr(q), s, s');
  }

  lemma NextInOrder(q: int, P: Table, t: nat)
    requires Fresh(P) && InOrder(q, P, t)
    ensures InOrder(q, P, t + 1)
    ensures After(Rr(q), P, t + 1).Some?
    ensures var s, s' := After(Rr(q), P, t).value, After(Rr(q), P, t + 1).value;
            Serves(TurnRank(RrTurns(q)), P, s.timeline, s'.timeline[t])
  {
    var s, a, b, s' := RunTick(q, P, t);
    TickInOrder(q, P, t, s, a, b, s');
  }

  lemma {:induction false} RrInOrder(q: int, P: Table, t: nat)
    requires Fresh(P)
    ensures InOrder(q, P, t) && ObeysFor(Rr(q), P, TurnRank(RrTurns(q)), t)
  {
    if t == 0 {
      AdmitLines(q, P, [], P, Init(q));
    } else {
      RrInOrder(q, P, t - 1);
      NextInOrder(q, P, t - 1);
      ObeysNext(Rr(q), P, TurnRank(RrTurns(q)), t - 1);
    }
  }

  /** Round Robin: on every tick of every run whoever is in the middle of a turn goes on, and
      otherwise the CPU goes to whoever has been in line longest. A turn is `q` ticks, or 4 when
      `q` is not positive. */
  lemma RrObeys(q: int, P: Table)
    requires Fresh(P)
    ensures Obeys(Rr(q), P, TurnRank(RrTurns(q)))
  {
    forall t: nat ensures ObeysFor(Rr(q), P, TurnRank(RrTurns(q)), t) { RrInOrder(q, P, t); }
  }

  // ---------- A turn on the timeline ----------

  /** Of `c` ticks, those beyond the last full turn of `n`. */
  function BeyondTurns(c: nat, n: nat): (u: nat)
    requires n > 0
    ensures u < n
  {
    if c == 0 then 0 else if BeyondTurns(c - 1, n) + 1 == n then 0 else BeyondTurns(c - 1, n) + 1
  }

  lemma {:induction false} WholeTurns(c: nat, n: nat) returns (k: nat)
    requires n > 0
    ensures c == n * k + BeyondTurns(c, n)
  {
    k := 0;
    if c > 0 {
      k := WholeTurns(c - 1, n);
      if BeyondTurns(c, n) == 0 {
        assert n * (k + 1) == n * k + n;
        k := k + 1;
      }
    }
  }

  lemma {:induction false} NoTicks(tl: seq<int>, pid: int, t: nat)
    requires t <= |tl| && forall u :: 0 <= u < t ==> tl[u] != pid
    ensures TicksOf(tl, pid, t) == 0
  {
    if t > 0 { NoTicks(tl, pid, t - 1); }
  }

  /** What a process has had of its turn, counted in the timeline. */
  lemma {:induction false} UsedIsTicks(q: int, tl: seq<int>, p: Process, t: nat)
    requires t <= |tl| && forall u :: 0 <= u < t && u < p.arrival ==> tl[u] != p.pid
    ensures StandingOf(RrTurns(q), tl[..t], p).level == 0
    ensures StandingOf(RrTurns(q), tl[..t], p).used == BeyondTurns(TicksOf(tl, p.pid, t), RrWaiting.Quantum(q))
  {
    if t > 0 {
      UsedIsTicks(q, tl, p, t - 1);
      assert tl[..t][..t - 1] == tl[..t - 1];
      if p.arrival >= t { NoTicks(tl, p.pid, t); }
    }
  }

  /** The ticks of slot `i` beyond its full turns as tick `t` begins. */
  function OfTurn(q: int, P: Table, tl: seq<int>, i: nat, t: nat): nat
    requires i < |P| && t <= |tl|
  {
    BeyondTurns(TicksOf(tl, P[i].pid, t), RrWaiting.Quantum(q))
  }

  lemma NotBefore(P: Table, tl: seq<int>, i: nat)
    requires Fresh(P) && Legal(P, tl) && i < |P|
    ensures forall u :: 0 <= u < |tl| && u < P[i].arrival ==> tl[u] != P[i].pid
  {
    forall u | 0 <= u < |tl| && u < P[i].arrival
      ensures tl[u] != P[i].pid
    {
      assert LegalTick(P, tl, u);
      IndexOfOwn(P, i);
      PlayedStatic(P[i], tl, u);
    }
  }

  /** The timeline of Round Robin's run after any number of ticks. */
  ghost predicate RrTimeline(q: int, P: Table, tl: seq<int>) {
    After(Rr(q), P, |tl|).Some? && After(Rr(q), P, |tl|).value.timeline == tl
  }

  /** Of all who may run, the process that tick `t` goes to. */
  lemma ServedAt(q: int, P: Table, tl: seq<int>, t: nat)
    requires Fresh(P) && RrTimeline(q, P, tl) && t < |tl|
    ensures Legal(P, tl) && Serves(TurnRank(RrTurns(q)), P, tl[..t], tl[t])
    ensures forall i :: 0 <= i < |P| ==> (ActiveAt(P, tl[..t], i, t) <==> ActiveAt(P, tl, i, t))
  {
    RrInOrder(q, P, |tl|);
    Ledger(Rr(q), P, |tl|);
    assert ServesAt(TurnRank(RrTurns(q)), P, tl, t);
    forall i | 0 <= i < |P|
      ensures ActiveAt(P, tl[..t], i, t) <==> ActiveAt(P, tl, i, t)
    {
      PlayedPrefix(P[i], tl[..t], tl, t);
    }
  }

  /** At most one process is in the middle of a turn, and it is the one that had the last tick. */
  ghost predicate OneInTurn(q: int, P: Table, tl: seq<int>, t: nat)
    requires t <= |tl|
  {
    forall i :: 0 <= i < |P| && ActiveAt(P, tl, i, t) && OfTurn(q, P, tl, i, t) > 0 ==> t > 0 && tl[t - 1] == P[i].pid
  }

  lemma InTurnIsServed(q: int, P: Table, tl: seq<int>, t: nat, i: nat)
    requires Fresh(P) && RrTimeline(q, P, tl) && t < |tl| && OneInTurn(q, P, tl, t)
    requires i < |P| && ActiveAt(P, tl, i, t) && OfTurn(q, P, tl, i, t) > 0
    ensures tl[t] == P[i].pid
  {
    ServedAt(q, P, tl, t);
    NotBefore(P, tl, i);
    UsedIsTicks(q, tl, P[i], t);
    var k := IndexOf(P, tl[t]);
    if k != i && tl[t] != IDLE {
      NotBefore(P, tl, k);
      UsedIsTicks(q, tl, P[k], t);
      IndexOfOwn(P, k);
      IndexOfOwn(P, i);
    }
  }

  lemma OneInTurnNext(q: int, P: Table, tl: seq<int>, t: nat, i: nat)
    requires Fresh(P) && RrTimeline(q, P, tl) && t < |tl| && OneInTurn(q, P, tl, t)
    requires i < |P| && ActiveAt(P, tl, i, t + 1) && OfTurn(q, P, tl, i, t + 1) > 0
    ensures tl[t] == P[i].pid
  {
    if tl[t] != P[i].pid {
      ServedAt(q, P, tl, t);
      NotBefore(P, tl, i);
      if P[i].arrival > t { NoTicks(tl, P[i].pid, t + 1); }
      PlayedStatic(P[i], tl, t);
      InTurnIsServed(q, P, tl, t, i);
    }
  }

  lemma {:induction false} OneInTurnAlways(q: int, P: Table, tl: seq<int>, t: nat)
    requires Fresh(P) && RrTimeline(q, P, tl) && t <= |tl|
    ensures OneInTurn(q, P, tl, t)
  {
    if t > 0 {
      OneInTurnAlways(q, P, tl, t - 1);
      forall i | 0 <= i < |P| && ActiveAt(P, tl, i, t) && OfTurn(q, P, tl, i, t) > 0
        ensures tl[t - 1] == P[i].pid
      {
        OneInTurnNext(q, P, tl, t - 1, i);
      }
    }
  }

  /** A process given the CPU at the start of a turn has the next ticks too: `q` of them in all,
      or 4 when `q` is not positive, or as many as it still needs if those are fewer. */
  lemma {:induction false} TurnGoesOn(q: int, P: Table, tl: seq<int>, t: nat, i: nat, d: nat)
    requires Fresh(P) && RrTimeline(q, P, tl) && t + d < |tl| && i < |P| && tl[t] == P[i].pid
    requires OfTurn(q, P, tl, i, t) == 0 && d < P[i].burst - TicksOf(tl, P[i].pid, t)
    requires q > 0 ==> d < q
    requires q <= 0 ==> d < 4
    ensures tl[t + d] == P[i].pid
    ensures TicksOf(tl, P[i].pid, t + d) == TicksOf(tl, P[i].pid, t) + d && OfTurn(q, P, tl, i, t + d) == d
  {
    if d > 0 {
      var u := t + d;
      TurnGoesOn(q, P, tl, t, i, d - 1);
      ServedAt(q, P, tl, t);
      assert LegalTick(P, tl, t);
      IndexOfOwn(P, i);
      PlayedStatic(P[i], tl, t);
      PlayedStatic(P[i], tl, u);
      assert TicksOf(tl, P[i].pid, u) == TicksOf(tl, P[i].pid, u - 1) + 1;
      OneInTurnAlways(q, P, tl, u);
      InTurnIsServed(q, P, tl, u, i);
    }
  }

  lemma SinceIs(q: int, tl: seq<int>, t: nat, p: Process, last: bool)
    requires 0 < t <= |tl| && p.arrival < t && (last <==> tl[t - 1] == p.pid)
    requires last ==> StandingOf(RrTurns(q), tl[..t], p).used == 0
    ensures var since := StandingOf(RrTurns(q), tl[..t], p).since;
            if last then since == 2 * t - 1 else since <= 2 * t - 2
  {
    assert tl[..t][..t - 1] == tl[..t - 1];
    SinceBefore(RrTurns(q), tl[..t - 1], p);
    UsedNotNegative(q, tl[..t - 1], p);
  }

  lemma {:induction false} UsedNotNegative(q: int, tl: seq<int>, p: Process)
    ensures StandingOf(RrTurns(q), tl, p).used >= 0
    decreases |tl|
  {
    if |tl| > 0 { UsedNotNegative(q, tl[..|tl| - 1], p); }
  }

  /** And no longer: after a full turn it gives way to whoever was ready before this tick. */
  lemma GivesWay(q: int, P: Table, tl: seq<int>, t: nat, i: nat, j: nat)
    requires Fresh(P) && RrTimeline(q, P, tl) && 0 < t < |tl| && i < |P| && j < |P| && i != j
    requires tl[t - 1] == P[i].pid && OfTurn(q, P, tl, i, t) == 0
    requires P[j].arrival < t && ActiveAt(P, tl, j, t)
    ensures tl[t] != P[i].pid
  {
    ServedAt(q, P, tl, t);
    IndexOfOwn(P, i);
    IndexOfOwn(P, j);
    NotBefore(P, tl, i);
    NotBefore(P, tl, j);
    UsedIsTicks(q, tl, P[i], t);
    UsedIsTicks(q, tl, P[j], t);
    SinceIs(q, tl, t, P[i], true);
    SinceIs(q, tl, t, P[j], false);
  }
}
