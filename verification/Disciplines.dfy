/** What each of the nine policies serves, said of the table and the timeline alone.

    A policy ranks the processes that have arrived and are unfinished by what the timeline so
    far says of them, and every tick goes to the first of that ranking. Nothing here looks at a
    scheduler or at what it remembers, and a ranking admits one timeline only. */
module Disciplines {
  import opened Processes
  import opened Engine
  import opened Timelines

  /** Smaller comes first, field by field; the table decides between equals. */
  datatype Rank = Rank(first: int, second: int, third: int)

  /** The rank of a process as tick `|tl|` chooses, `tl` being the ticks before it. */
  type Ranking = (Table, seq<int>, Process) -> Rank

  predicate Ahead(r: Rank, i: int, q: Rank, j: int) {
    || r.first < q.first
    || (r.first == q.first && r.second < q.second)
    || (r.first == q.first && r.second == q.second && r.third < q.third)
    || (r == q && i < j)
  }

  /** Slot `i` may run and is ahead of everybody else who may. */
  ghost predicate Foremost(rank: Ranking, P: Table, tl: seq<int>, i: nat)
    requires i < |P|
  {
    && ActiveAt(P, tl, i, |tl|)
    && forall j :: 0 <= j < |P| && j != i && ActiveAt(P, tl, j, |tl|) ==>
         Ahead(rank(P, tl, P[i]), i, rank(P, tl, P[j]), j)
  }

  /** The choice `next` after the ticks `tl`: idle only with nobody to run. */
  ghost predicate Serves(rank: Ranking, P: Table, tl: seq<int>, next: int) {
    var i := IndexOf(P, next);
    if next == IDLE then forall j :: 0 <= j < |P| ==> !ActiveAt(P, tl, j, |tl|)
    else i >= 0 && Foremost(rank, P, tl, i)
  }

  ghost predicate ServesAt(rank: Ranking, P: Table, tl: seq<int>, t: nat)
    requires t < |tl|
  {
    Serves(rank, P, tl[..t], tl[t])
  }

  ghost predicate Follows(rank: Ranking, P: Table, tl: seq<int>) {
    forall t :: 0 <= t < |tl| ==> ServesAt(rank, P, tl, t)
  }

  // ---------- The rankings ----------

  predicate RanLast(tl: seq<int>, pid: int) {
    |tl| > 0 && tl[|tl| - 1] == pid
  }

  function LastFirst(tl: seq<int>, p: Process): int {
    if RanLast(tl, p.pid) then 0 else 1
  }

  /** First come, first served: table order. */
  function FcfsRank(): Ranking { (P, tl, p) => Rank(0, 0, 0) }

  /** Whoever ran last goes on; else the shortest burst. */
  function SjfRank(): Ranking { (P: Table, tl, p: Process) => Rank(LastFirst(tl, p), p.burst, 0) }

  /** Whoever ran last goes on; else the smallest priority number. */
  function PriorityNpRank(): Ranking { (P: Table, tl, p: Process) => Rank(LastFirst(tl, p), p.priority, 0) }

  /** The least burst still to execute; among equals whoever ran last. */
  function SrtfRank(): Ranking {
    (P: Table, tl, p: Process) => Rank(p.burst - TicksOf(tl, p.pid, |tl|), LastFirst(tl, p), 0)
  }

  /** The smallest priority number; among equals whoever ran last. */
  function PriorityPRank(): Ranking { (P: Table, tl, p: Process) => Rank(p.priority, LastFirst(tl, p), 0) }

  /** What a tick of CPU adds to the virtual runtime of a process of this nice value. */
  function Charge(nice: int): int {
    if nice < 0 then 0 else if nice <= 3 then 1 else if nice == 4 then 2 else 3
  }

  ghost predicate HasCompanion(P: Table, p: Process) {
    exists j :: 0 <= j < |P| && P[j].pid != p.pid && P[j].arrival == p.arrival
  }

  /** The least virtual runtime among the first `k` processes that arrived before tick `|tl|`
      and are unfinished, if any are. */
  ghost function LeastBefore(P: Table, tl: seq<int>, k: nat): Option<int>
    requires k <= |P|
    decreases |tl|, 1, k
  {
    if k == 0 then None
    else
      var least := LeastBefore(P, tl, k - 1);
      if P[k - 1].arrival < |tl| && ActiveAt(P, tl, k - 1, |tl|) then
        var v := VirtualRuntime(P, tl, P[k - 1]);
        if least.None? || v < least.value then Some(v) else least
      else least
  }

  /** A lone arrival starts level with the least of those already ready, or at 0 with nobody
      ready; companions start at 0; and every tick of CPU adds its charge. */
  ghost function VirtualRuntime(P: Table, tl: seq<int>, p: Process): int
    decreases |tl|, if p.arrival < |tl| then 0 else 2, 0
  {
    var t := |tl|;
    if p.arrival > t then 0
    else if p.arrival == t then
      var least := LeastBefore(P, tl, |P|);
      if HasCompanion(P, p) || least.None? then 0 else least.value
    else if t == 0 then 0
    else VirtualRuntime(P, tl[..t - 1], p) + (if tl[t - 1] == p.pid then Charge(p.nice) else 0)
  }

  /** The least virtual runtime; among equals whoever ran last. */
  ghost function CfsRank(): Ranking {
    (P: Table, tl, p: Process) => Rank(VirtualRuntime(P, tl, p), LastFirst(tl, p), 0)
  }

  /** Serving by turns: the level at which an arrival enters, the ticks of a turn on each level
      (0 for no limit), the level after a full turn, and the ticks on which all start afresh. */
  datatype Turns = Turns(entry: Process -> int, length: int -> int, after: int -> int, afresh: int -> bool)

  /** Where a process stands: its level, the ticks it has had of its turn, and since when it has
      been in line for it. Arrivals of tick `t` are in line since `2 * t`, before whoever
      completes a turn on that tick, who is back in line since `2 * t + 1`. */
  datatype Standing = Standing(level: int, used: int, since: int)

  /** A turn goes on, tick by tick, until it is full. */
  function HadTick(turns: Turns, s: Standing, t: int): Standing {
    if s.used + 1 == turns.length(s.level) then Standing(turns.after(s.level), 0, 2 * t + 1)
    else s.(used := s.used + 1)
  }

  /** When all start afresh, whoever is in the middle of its turn on the CPU comes first. */
  function Afresh(s: Standing, ran: bool, t: int): Standing {
    Standing(0, 0, if ran && s.used > 0 then 2 * t - 1 else 2 * t)
  }

  function StandingOf(turns: Turns, tl: seq<int>, p: Process): Standing
    decreases |tl|
  {
    var t := |tl|;
    if p.arrival >= t || t == 0 then Standing(turns.entry(p), 0, 2 * p.arrival)
    else
      var s := StandingOf(turns, tl[..t - 1], p);
      var s' := if tl[t - 1] == p.pid then HadTick(turns, s, t - 1) else s;
      if turns.afresh(t) then Afresh(s', tl[t - 1] == p.pid, t) else s'
  }

  /** The highest level; there, a turn that has begun; and then the longest in line. */
  function TurnRank(turns: Turns): Ranking {
    (P: Table, tl, p) =>
      var s := StandingOf(turns, tl, p);
      Rank(s.level, if s.used > 0 then 0 else 1, s.since)
  }

  /** One level, with turns of `quantum` ticks, or of 4 when that is not positive. */
  function RrTurns(quantum: int): Turns {
    Turns(_ => 0, _ => if quantum > 0 then quantum else 4, lv => lv, _ => false)
  }

  /** Everybody stays at the level that the table gives: turns of 2 and 4, and none at the
      bottom. */
  function MlqTurns(): Turns {
    Turns((p: Process) => p.queue, lv => if lv == 0 then 2 else if lv == 1 then 4 else 0, lv => lv, _ => false)
  }

  /** From the top down one level with each full turn of 2, 4 or 8 ticks, and back to the top on
      every fiftieth tick. */
  function MlfqTurns(): Turns {
    Turns(_ => 0, lv => if lv == 0 then 2 else if lv == 1 then 4 else 8, lv => if lv == 0 then 1 else 2,
      t => t > 0 && t % 50 == 0)
  }

  // ---------- Choices ----------

  /** The table of a run stands for the timeline that it was played along. */
  lemma PlayedActive(P: Table, tl: seq<int>, ps: Table)
    requires PlayedTable(P, tl, |tl|, ps)
    ensures forall i :: 0 <= i < |P| ==> ps[i].pid == P[i].pid && (ActiveAt(P, tl, i, |tl|) <==> Active(ps[i], |tl|))
  {
    PlayedSame(P, tl, |tl|, ps);
  }

  lemma ServesSlot(rank: Ranking, P: Table, tl: seq<int>, ps: Table, b: nat)
    requires Fresh(P) && PlayedTable(P, tl, |tl|, ps) && b < |P| && Active(ps[b], |tl|)
    requires forall j :: 0 <= j < |P| && j != b && Active(ps[j], |tl|) ==>
             Ahead(rank(P, tl, P[b]), b, rank(P, tl, P[j]), j)
    ensures Serves(rank, P, tl, ps[b].pid)
  {
    PlayedActive(P, tl, ps);
    IndexOfOwn(P, b);
  }

  lemma ServesNobody(rank: Ranking, P: Table, tl: seq<int>, ps: Table)
    requires PlayedTable(P, tl, |tl|, ps) && forall i :: 0 <= i < |P| ==> !Active(ps[i], |tl|)
    ensures Serves(rank, P, tl, IDLE)
  {
    PlayedActive(P, tl, ps);
  }

  // ---------- One timeline each ----------

  /** Only one process is foremost. */
  lemma OneForemost(rank: Ranking, P: Table, tl: seq<int>, i: nat, j: nat)
    requires i < |P| && j < |P| && Foremost(rank, P, tl, i) && Foremost(rank, P, tl, j)
    ensures i == j
  {
  }

  lemma OneChoice(rank: Ranking, P: Table, tl: seq<int>, a: int, b: int)
    requires Serves(rank, P, tl, a) && Serves(rank, P, tl, b)
    ensures a == b
  {
    if a != IDLE && b != IDLE { OneForemost(rank, P, tl, IndexOf(P, a), IndexOf(P, b)); }
  }

  /** Two timelines of one length that follow the same ranking are the same. */
  lemma {:induction false} OneTimeline(rank: Ranking, P: Table, a: seq<int>, b: seq<int>)
    requires Follows(rank, P, a) && Follows(rank, P, b) && |a| == |b|
    ensures a == b
    decreases |a|
  {
    if |a| > 0 {
      var t := |a| - 1;
      FollowsPrefix(rank, P, a, t);
      FollowsPrefix(rank, P, b, t);
      OneTimeline(rank, P, a[..t], b[..t]);
      assert ServesAt(rank, P, a, t) && ServesAt(rank, P, b, t);
      OneChoice(rank, P, a[..t], a[t], b[t]);
      assert a == a[..t] + [a[t]] && b == b[..t] + [b[t]];
    }
  }

  lemma FollowsPrefix(rank: Ranking, P: Table, tl: seq<int>, t: nat)
    requires Follows(rank, P, tl) && t <= |tl|
    ensures Follows(rank, P, tl[..t])
  {
    forall u | 0 <= u < t
      ensures ServesAt(rank, P, tl[..t], u)
    {
      assert ServesAt(rank, P, tl, u) && tl[..t][..u] == tl[..u];
    }
  }

  lemma FollowsNext(rank: Ranking, P: Table, tl: seq<int>, next: int)
    requires Follows(rank, P, tl) && Serves(rank, P, tl, next)
    ensures Follows(rank, P, tl + [next])
  {
    var ext := tl + [next];
    forall u | 0 <= u < |ext|
      ensures ServesAt(rank, P, ext, u)
    {
      assert ext[..u] == tl[..u];
      if u < |tl| { assert ServesAt(rank, P, tl, u); } else { assert tl[..u] == tl; }
    }
  }

  ghost predicate ObeysFor<S>(sc: Scheduler<S>, P: Table, rank: Ranking, t: nat) {
    After(sc, P, t).Some? && Follows(rank, P, After(sc, P, t).value.timeline)
  }

  /** The scheduler never fails, and however long it runs its timeline follows the ranking. */
  ghost predicate Obeys<S>(sc: Scheduler<S>, P: Table, rank: Ranking) {
    forall t: nat :: ObeysFor(sc, P, rank, t)
  }

  /** What the first `t` ticks follow, one more tick does if its choice serves the ranking. */
  lemma ObeysNext<S>(sc: Scheduler<S>, P: Table, rank: Ranking, t: nat)
    requires ObeysFor(sc, P, rank, t) && After(sc, P, t + 1).Some?
    requires Serves(rank, P, After(sc, P, t).value.timeline, After(sc, P, t + 1).value.timeline[t])
    ensures ObeysFor(sc, P, rank, t + 1)
  {
    var s, s' := After(sc, P, t).value, After(sc, P, t + 1).value;
    AfterPrefix(sc, P, t + 1, t);
    assert s'.timeline == s.timeline + [s'.timeline[t]];
    FollowsNext(rank, P, s.timeline, s'.timeline[t]);
  }

  /** A scheduler that obeys a ranking accepts a table exactly when some complete timeline of at
      most 8192 ticks follows the ranking, and that timeline is its run. */
  lemma RunIsTheTimeline<S>(sc: Scheduler<S>, P: Table, rank: Ranking, tl: seq<int>)
    requires Fresh(P) && Obeys(sc, P, rank)
    ensures CompleteRun(P, tl) && |tl| <= 8192 && Follows(rank, P, tl)
       <==> Run(sc, P).Some? && Run(sc, P).value.timeline == tl
  {
    RunIffStops(sc, P);
    if Run(sc, P).Some? {
      AcceptedRun(sc, P);
      assert ObeysFor(sc, P, rank, |Run(sc, P).value.timeline|);
    }
    if CompleteRun(P, tl) && |tl| <= 8192 && Follows(rank, P, tl) {
      var T := |tl|;
      assert ObeysFor(sc, P, rank, T);
      OneTimeline(rank, P, tl, After(sc, P, T).value.timeline);
      forall t | 0 <= t <= T ensures Running(sc, P, t) <==> t < T { StillRunning(sc, P, t, T); }
      assert !Running(sc, P, T);
      assert StopsAt(sc, P, T);
    }
  }
}
