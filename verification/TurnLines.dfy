/** The lines that the queueing policies keep, against the standings that the timeline tells.

    A level's line is the process running from it and then its queue. Kept in the order in which
    its members came, with a turn begun at its head only, the first line's head is the process
    that the ranking puts first. */
module TurnLines {
  import opened Processes
  import opened Engine
  import opened Timelines
  import opened ReadyLists
  import opened MultiQueue
  import opened Disciplines

  /** The standing of pid `x`, who has arrived. */
  function Stands(turns: Turns, P: Table, tl: seq<int>, x: int): Standing
    requires IndexOf(P, x) >= 0
  {
    StandingOf(turns, tl, P[IndexOf(P, x)])
  }

  predicate HasArrived(P: Table, t: int, x: int) {
    IndexOf(P, x) >= 0 && P[IndexOf(P, x)].arrival <= t
  }

  /** Place `p` of the line of level `lv`; `spent` is what the head has had of its turn. */
  ghost predicate PlaceOk(turns: Turns, P: Table, tl: seq<int>, l: seq<int>, lv: int, spent: int, p: nat)
    requires p < |l|
  {
    && HasArrived(P, |tl|, l[p])
    && var s := Stands(turns, P, tl, l[p]);
       && s.level == lv
       && (if p > 0 then s.used == 0 else s.used >= 0 && (turns.length(lv) > 0 ==> s.used == spent))
  }

  /** `x` came into line before `y` did. */
  ghost predicate CameBefore(turns: Turns, P: Table, tl: seq<int>, x: int, y: int) {
    && IndexOf(P, x) >= 0 && IndexOf(P, y) >= 0
    && var a, b := Stands(turns, P, tl, x).since, Stands(turns, P, tl, y).since;
       a < b || (a == b && IndexOf(P, x) < IndexOf(P, y))
  }

  ghost predicate LineOk(turns: Turns, P: Table, tl: seq<int>, l: seq<int>, lv: int, spent: int) {
    && (l == [] ==> spent == 0)
    && (forall p :: 0 <= p < |l| ==> PlaceOk(turns, P, tl, l, lv, spent, p))
    && (forall p, q :: 0 <= p < q < |l| ==> CameBefore(turns, P, tl, l[p], l[q]))
  }

  ghost predicate LinesOk(turns: Turns, P: Table, tl: seq<int>, ls: Levels<seq<int>>, spent: Levels<int>) {
    && LineOk(turns, P, tl, ls.l0, 0, spent.l0)
    && LineOk(turns, P, tl, ls.l1, 1, spent.l1)
    && LineOk(turns, P, tl, ls.l2, 2, spent.l2)
  }

  // ---------- The choice ----------

  /** Everybody who may run is in some line. */
  ghost predicate InLine(P: Table, tl: seq<int>, ls: Levels<seq<int>>) {
    forall j :: 0 <= j < |P| && ActiveAt(P, tl, j, |tl|) ==>
      P[j].pid in ls.l0 || P[j].pid in ls.l1 || P[j].pid in ls.l2
  }

  lemma AheadOf(turns: Turns, P: Table, tl: seq<int>, ls: Levels<seq<int>>, spent: Levels<int>, lv: int, j: nat)
    requires Fresh(P) && LinesOk(turns, P, tl, ls, spent) && InLine(P, tl, ls) && 0 <= lv <= 2 && ls.At(lv) != []
    requires forall k :: 0 <= k < lv ==> ls.At(k) == []
    requires j < |P| && ActiveAt(P, tl, j, |tl|) && P[j].pid != ls.At(lv)[0]
    ensures var i := IndexOf(P, ls.At(lv)[0]);
            i >= 0 && Ahead(TurnRank(turns)(P, tl, P[i]), i, TurnRank(turns)(P, tl, P[j]), j)
  {
    IndexOfOwn(P, j);
    var k := if P[j].pid in ls.l0 then 0 else if P[j].pid in ls.l1 then 1 else 2;
    assert ls.At(0) == ls.l0 && ls.At(1) == ls.l1;
    var l, head := ls.At(k), ls.At(lv);
    assert LineOk(turns, P, tl, l, k, spent.At(k)) && LineOk(turns, P, tl, head, lv, spent.At(lv));
    var p :| 0 <= p < |l| && l[p] == P[j].pid;
    assert PlaceOk(turns, P, tl, l, k, spent.At(k), p) && PlaceOk(turns, P, tl, head, lv, spent.At(lv), 0);
    if k == lv { assert CameBefore(turns, P, tl, l[0], l[p]); }
  }

  /** The head of the first line serves the ranking. */
  lemma HeadServes(turns: Turns, P: Table, tl: seq<int>, ls: Levels<seq<int>>, spent: Levels<int>, lv: int)
    requires Fresh(P) && LinesOk(turns, P, tl, ls, spent) && InLine(P, tl, ls) && 0 <= lv <= 2 && ls.At(lv) != []
    requires forall k :: 0 <= k < lv ==> ls.At(k) == []
    requires var i := IndexOf(P, ls.At(lv)[0]); i >= 0 && ActiveAt(P, tl, i, |tl|)
    ensures Serves(TurnRank(turns), P, tl, ls.At(lv)[0])
  {
    var x := ls.At(lv)[0];
    var i := IndexOf(P, x);
    forall j | 0 <= j < |P| && j != i && ActiveAt(P, tl, j, |tl|)
      ensures Ahead(TurnRank(turns)(P, tl, P[i]), i, TurnRank(turns)(P, tl, P[j]), j)
    {
      IndexOfOwn(P, j);
      AheadOf(turns, P, tl, ls, spent, lv, j);
    }
  }

  // ---------- Arrivals ----------

  /** Whoever arrived earlier has been in line since before this tick's arrivals, unless all
      start afresh on it. */
  lemma {:induction false} SinceBefore(turns: Turns, tl: seq<int>, p: Process)
    requires p.arrival <= |tl|
    ensures StandingOf(turns, tl, p).since <= 2 * |tl|
    ensures p.arrival < |tl| && |tl| > 0 && !turns.afresh(|tl|) ==> StandingOf(turns, tl, p).since < 2 * |tl|
    decreases |tl|
  {
    if p.arrival < |tl| && |tl| > 0 { SinceBefore(turns, tl[..|tl| - 1], p); }
  }

  /** Those who arrive on tick `t` at level `lv`, in table order. */
  ghost predicate JoinOk(turns: Turns, P: Table, t: int, js: seq<int>, lv: int) {
    && (forall p :: 0 <= p < |js| ==>
          IndexOf(P, js[p]) >= 0 && P[IndexOf(P, js[p])].arrival == t && turns.entry(P[IndexOf(P, js[p])]) == lv)
    && (forall p, q :: 0 <= p < q < |js| ==> IndexOf(P, js[p]) < IndexOf(P, js[q]))
  }

  /** A line of those who arrived before tick `|tl|`. */
  predicate AllEarlier(P: Table, t: int, l: seq<int>) {
    forall p :: 0 <= p < |l| ==> HasArrived(P, t - 1, l[p])
  }

  /** Arrivals join a line at its end. */
  lemma JoinKeeps(turns: Turns, P: Table, tl: seq<int>, l: seq<int>, js: seq<int>, lv: int, spent: int)
    requires LineOk(turns, P, tl, l, lv, spent) && JoinOk(turns, P, |tl|, js, lv)
    requires l == [] || (AllEarlier(P, |tl|, l) && !turns.afresh(|tl|) && |tl| > 0)
    ensures LineOk(turns, P, tl, l + js, lv, spent)
  {
    var r := l + js;
    forall p | 0 <= p < |r|
      ensures PlaceOk(turns, P, tl, r, lv, spent, p)
    {
      if p < |l| { assert PlaceOk(turns, P, tl, l, lv, spent, p); }
    }
    forall p, q | 0 <= p < q < |r|
      ensures CameBefore(turns, P, tl, r[p], r[q])
    {
      if q < |l| {
        assert CameBefore(turns, P, tl, l[p], l[q]);
      } else if p < |l| {
        assert PlaceOk(turns, P, tl, l, lv, spent, p) && HasArrived(P, |tl| - 1, l[p]);
        SinceBefore(turns, tl, P[IndexOf(P, l[p])]);
      } else {
        assert r[p] == js[p - |l|] && r[q] == js[q - |l|];
      }
    }
  }

  // ---------- A tick ----------

  /** One more tick changes the standing of the process that had it, and of nobody else. */
  lemma StandingNext(turns: Turns, tl: seq<int>, p: Process, next: int)
    requires p.arrival <= |tl| && !turns.afresh(|tl| + 1)
    ensures StandingOf(turns, tl + [next], p)
         == var s := StandingOf(turns, tl, p); if next == p.pid then HadTick(turns, s, |tl|) else s
  {
    assert (tl + [next])[..|tl|] == tl;
  }

  lemma StandsNext(turns: Turns, P: Table, tl: seq<int>, next: int, x: int)
    requires HasArrived(P, |tl|, x) && !turns.afresh(|tl| + 1)
    ensures Stands(turns, P, tl + [next], x)
         == var s := Stands(turns, P, tl, x); if next == x then HadTick(turns, s, |tl|) else s
  {
    StandingNext(turns, tl, P[IndexOf(P, x)], next);
  }

  /** A line without the process that ran stays as it is; so does what is left of one behind it. */
  lemma OthersStay(turns: Turns, P: Table, tl: seq<int>, next: int, l: seq<int>, lv: int, spent: int)
    requires LineOk(turns, P, tl, l, lv, spent) && next !in l && !turns.afresh(|tl| + 1)
    ensures LineOk(turns, P, tl + [next], l, lv, spent) && AllEarlier(P, |tl| + 1, l)
  {
    var ext := tl + [next];
    forall p | 0 <= p < |l|
      ensures PlaceOk(turns, P, ext, l, lv, spent, p) && HasArrived(P, |tl|, l[p])
      ensures Stands(turns, P, ext, l[p]) == Stands(turns, P, tl, l[p])
    {
      assert PlaceOk(turns, P, tl, l, lv, spent, p);
      StandsNext(turns, P, tl, next, l[p]);
    }
    forall p, q | 0 <= p < q < |l|
      ensures CameBefore(turns, P, ext, l[p], l[q])
    {
      assert CameBefore(turns, P, tl, l[p], l[q]);
    }
  }

  /** Behind the head nobody has begun a turn. */
  lemma BehindHead(turns: Turns, P: Table, tl: seq<int>, l: seq<int>, lv: int, spent: int)
    requires LineOk(turns, P, tl, l, lv, spent) && l != []
    ensures LineOk(turns, P, tl, l[1..], lv, 0)
  {
    var r := l[1..];
    forall p | 0 <= p < |r|
      ensures PlaceOk(turns, P, tl, r, lv, 0, p)
    {
      assert PlaceOk(turns, P, tl, l, lv, spent, p + 1);
    }
    forall p, q | 0 <= p < q < |r|
      ensures CameBefore(turns, P, tl, r[p], r[q])
    {
      assert CameBefore(turns, P, tl, l[p + 1], l[q + 1]);
    }
  }

  /** The turn of the head of level `lv` is full with one more tick. */
  predicate Full(turns: Turns, lv: int, spent: int) {
    turns.length(lv) > 0 && spent + 1 == turns.length(lv)
  }

  predicate Distinct(l: seq<int>) {
    forall p, q :: 0 <= p < q < |l| ==> l[p] != l[q]
  }

  /** The head goes on with its turn. */
  lemma HeadGoesOn(turns: Turns, P: Table, tl: seq<int>, l: seq<int>, lv: int, spent: int)
    requires LineOk(turns, P, tl, l, lv, spent) && l != [] && Distinct(l)
    requires !turns.afresh(|tl| + 1) && !Full(turns, lv, spent) && turns.length(lv) >= 0
    ensures var spent' := if turns.length(lv) > 0 then spent + 1 else spent;
            LineOk(turns, P, tl + [l[0]], l, lv, spent') && AllEarlier(P, |tl| + 1, l)
  {
    var ext, spent' := tl + [l[0]], if turns.length(lv) > 0 then spent + 1 else spent;
    forall p | 0 <= p < |l|
      ensures PlaceOk(turns, P, ext, l, lv, spent', p) && HasArrived(P, |tl|, l[p])
      ensures Stands(turns, P, ext, l[p]).since == Stands(turns, P, tl, l[p]).since
    {
      assert PlaceOk(turns, P, tl, l, lv, spent, p);
      StandsNext(turns, P, tl, l[0], l[p]);
    }
    forall p, q | 0 <= p < q < |l|
      ensures CameBefore(turns, P, ext, l[p], l[q])
    {
      assert CameBefore(turns, P, tl, l[p], l[q]);
    }
  }

  /** The head leaves: it has finished, or goes elsewhere. */
  lemma HeadLeaves(turns: Turns, P: Table, tl: seq<int>, l: seq<int>, lv: int, spent: int)
    requires LineOk(turns, P, tl, l, lv, spent) && l != [] && Distinct(l) && !turns.afresh(|tl| + 1)
    ensures LineOk(turns, P, tl + [l[0]], l[1..], lv, 0) && AllEarlier(P, |tl| + 1, l[1..])
  {
    BehindHead(turns, P, tl, l, lv, spent);
    OthersStay(turns, P, tl, l[0], l[1..], lv, 0);
  }

  /** Whoever completes a turn goes to the tail of the line of the level that follows, behind
      everybody already there. `l` is that line once it has left its own. */
  lemma TailTaken(turns: Turns, P: Table, tl: seq<int>, x: int, l: seq<int>, lv: int, spent: int, from: int)
    requires LineOk(turns, P, tl + [x], l, lv, spent) && AllEarlier(P, |tl| + 1, l) && !turns.afresh(|tl| + 1)
    requires HasArrived(P, |tl|, x) && x !in l && lv == turns.after(from)
    requires var s := Stands(turns, P, tl, x); s.level == from && s.used + 1 == turns.length(from)
    requires forall p :: 0 <= p < |l| ==> Stands(turns, P, tl + [x], l[p]).since <= 2 * |tl|
    ensures LineOk(turns, P, tl + [x], l + [x], lv, spent) && AllEarlier(P, |tl| + 1, l + [x])
  {
    var ext, r := tl + [x], l + [x];
    StandsNext(turns, P, tl, x, x);
    forall p | 0 <= p < |r|
      ensures PlaceOk(turns, P, ext, r, lv, spent, p) && HasArrived(P, |tl|, r[p])
    {
      if p < |l| { assert PlaceOk(turns, P, ext, l, lv, spent, p) && HasArrived(P, |tl| + 1 - 1, l[p]); }
    }
    forall p, q | 0 <= p < q < |r|
      ensures CameBefore(turns, P, ext, r[p], r[q])
    {
      if q < |l| {
        assert CameBefore(turns, P, ext, l[p], l[q]);
      } else {
        assert HasArrived(P, |tl| + 1 - 1, l[p]);
      }
    }
  }

  /** Nobody but the process that ran can be in line since later than this tick's arrivals. */
  lemma SinceStays(turns: Turns, P: Table, tl: seq<int>, x: int, l: seq<int>)
    requires AllEarlier(P, |tl| + 1, l) && x !in l && !turns.afresh(|tl| + 1)
    ensures forall p :: 0 <= p < |l| ==> IndexOf(P, l[p]) >= 0 && Stands(turns, P, tl + [x], l[p]).since <= 2 * |tl|
  {
    forall p | 0 <= p < |l|
      ensures IndexOf(P, l[p]) >= 0 && Stands(turns, P, tl + [x], l[p]).since <= 2 * |tl|
    {
      assert HasArrived(P, |tl| + 1 - 1, l[p]);
      StandsNext(turns, P, tl, x, l[p]);
      SinceBefore(turns, tl, P[IndexOf(P, l[p])]);
    }
  }

  /** The lines after a tick of the head of level `lv`: it stays there unless it has finished or
      its turn is full, and in the second case goes to the end of the line that follows. */
  function Moved(turns: Turns, ls: Levels<seq<int>>, lv: int, finished: bool, full: bool): Levels<seq<int>>
    requires ls.At(lv) != []
  {
    if !finished && !full then ls
    else
      var m := ls.With(lv, ls.At(lv)[1..]);
      if finished then m else m.With(turns.after(lv), m.At(turns.after(lv)) + [ls.At(lv)[0]])
  }

  function SpentNext(turns: Turns, spent: Levels<int>, lv: int, finished: bool, full: bool): Levels<int> {
    if finished || full then spent.With(lv, 0)
    else if turns.length(lv) > 0 then spent.With(lv, spent.At(lv) + 1)
    else spent
  }

  /** The head of level `lv` is nowhere else in line. */
  predicate HeadOnce(ls: Levels<seq<int>>, lv: int) {
    && ls.At(lv) != [] && Distinct(ls.At(lv))
    && forall k :: 0 <= k <= 2 && k != lv ==> ls.At(lv)[0] !in ls.At(k)
  }

  /** Line `k` after a tick of the head of line `lv`, before that goes to any other place. */
  lemma LineNext(turns: Turns, P: Table, tl: seq<int>, ls: Levels<seq<int>>, spent: Levels<int>, lv: int,
      leaves: bool, k: int)
    requires LinesOk(turns, P, tl, ls, spent) && 0 <= lv <= 2 && 0 <= k <= 2 && HeadOnce(ls, lv)
    requires !turns.afresh(|tl| + 1) && turns.length(lv) >= 0
    requires !leaves ==> !Full(turns, lv, spent.At(lv))
    ensures var l := if k == lv && leaves then ls.At(lv)[1..] else ls.At(k);
            && LineOk(turns, P, tl + [ls.At(lv)[0]], l, k, SpentNext(turns, spent, lv, leaves, leaves).At(k))
            && AllEarlier(P, |tl| + 1, l)
  {
    assert LineOk(turns, P, tl, ls.At(k), k, spent.At(k));
    if k != lv {
      OthersStay(turns, P, tl, ls.At(lv)[0], ls.At(k), k, spent.At(k));
    } else if leaves {
      HeadLeaves(turns, P, tl, ls.At(k), k, spent.At(k));
    } else {
      HeadGoesOn(turns, P, tl, ls.At(k), k, spent.At(k));
    }
  }

  /** The line that a full turn leads to. */
  lemma LineTaken(turns: Turns, P: Table, tl: seq<int>, ls: Levels<seq<int>>, spent: Levels<int>, lv: int)
    requires LinesOk(turns, P, tl, ls, spent) && 0 <= lv <= 2 && HeadOnce(ls, lv) && !turns.afresh(|tl| + 1)
    requires turns.length(lv) >= 0 && Full(turns, lv, spent.At(lv)) && 0 <= turns.after(lv) <= 2
    ensures var to, x := turns.after(lv), ls.At(lv)[0];
            var l := (if to == lv then ls.At(lv)[1..] else ls.At(to)) + [x];
            LineOk(turns, P, tl + [x], l, to, SpentNext(turns, spent, lv, true, true).At(to))
            && AllEarlier(P, |tl| + 1, l)
  {
    var to, x := turns.after(lv), ls.At(lv)[0];
    var l := if to == lv then ls.At(lv)[1..] else ls.At(to);
    LineNext(turns, P, tl, ls, spent, lv, true, to);
    assert LineOk(turns, P, tl, ls.At(lv), lv, spent.At(lv));
    assert PlaceOk(turns, P, tl, ls.At(lv), lv, spent.At(lv), 0);
    SinceStays(turns, P, tl, x, l);
    TailTaken(turns, P, tl, x, l, to, SpentNext(turns, spent, lv, true, true).At(to), lv);
  }

  /** Line `k` after a tick, as `Moved` has it. */
  lemma MovedAt(turns: Turns, ls: Levels<seq<int>>, lv: int, finished: bool, full: bool, k: int)
    requires ls.At(lv) != [] && 0 <= lv <= 2 && 0 <= k <= 2 && 0 <= turns.after(lv) <= 2
    ensures Moved(turns, ls, lv, finished, full).At(k)
         == (if k == lv && (finished || full) then ls.At(lv)[1..] else ls.At(k))
            + (if full && !finished && k == turns.after(lv) then [ls.At(lv)[0]] else [])
  {
  }

  /** Line `k` after a tick of the head of line `lv`. */
  lemma MovedLine(turns: Turns, P: Table, tl: seq<int>, ls: Levels<seq<int>>, spent: Levels<int>, lv: int,
      finished: bool, full: bool, k: int)
    requires LinesOk(turns, P, tl, ls, spent) && 0 <= lv <= 2 && 0 <= k <= 2 && HeadOnce(ls, lv)
    requires !turns.afresh(|tl| + 1) && turns.length(lv) >= 0 && 0 <= turns.after(lv) <= 2
    requires full <==> Full(turns, lv, spent.At(lv))
    ensures var l := Moved(turns, ls, lv, finished, full).At(k);
            && LineOk(turns, P, tl + [ls.At(lv)[0]], l, k, SpentNext(turns, spent, lv, finished, full).At(k))
            && AllEarlier(P, |tl| + 1, l)
  {
    MovedAt(turns, ls, lv, finished, full, k);
    if full && !finished && k == turns.after(lv) {
      LineTaken(turns, P, tl, ls, spent, lv);
    } else {
      LineNext(turns, P, tl, ls, spent, lv, finished || full, k);
    }
  }

  ghost predicate AllLinesEarlier(P: Table, t: int, ls: Levels<seq<int>>) {
    AllEarlier(P, t, ls.l0) && AllEarlier(P, t, ls.l1) && AllEarlier(P, t, ls.l2)
  }

  /** A tick of the head of level `lv` keeps every line in order. */
  lemma TickKeeps(turns: Turns, P: Table, tl: seq<int>, ls: Levels<seq<int>>, spent: Levels<int>, lv: int,
      finished: bool)
    requires LinesOk(turns, P, tl, ls, spent) && 0 <= lv <= 2 && HeadOnce(ls, lv) && !turns.afresh(|tl| + 1)
    requires turns.length(lv) >= 0 && 0 <= turns.after(lv) <= 2
    ensures var full := Full(turns, lv, spent.At(lv));
            var ls' := Moved(turns, ls, lv, finished, full);
            && LinesOk(turns, P, tl + [ls.At(lv)[0]], ls', SpentNext(turns, spent, lv, finished, full))
            && AllLinesEarlier(P, |tl| + 1, ls')
  {
    var full := Full(turns, lv, spent.At(lv));
    MovedLine(turns, P, tl, ls, spent, lv, finished, full, 0);
    MovedLine(turns, P, tl, ls, spent, lv, finished, full, 1);
    MovedLine(turns, P, tl, ls, spent, lv, finished, full, 2);
    AllLines(turns, P, tl + [ls.At(lv)[0]], Moved(turns, ls, lv, finished, full),
        SpentNext(turns, spent, lv, finished, full));
  }

  lemma AllLines(turns: Turns, P: Table, tl: seq<int>, ls: Levels<seq<int>>, spent: Levels<int>)
    requires LineOk(turns, P, tl, ls.At(0), 0, spent.At(0)) && AllEarlier(P, |tl|, ls.At(0))
    requires LineOk(turns, P, tl, ls.At(1), 1, spent.At(1)) && AllEarlier(P, |tl|, ls.At(1))
    requires LineOk(turns, P, tl, ls.At(2), 2, spent.At(2)) && AllEarlier(P, |tl|, ls.At(2))
    ensures LinesOk(turns, P, tl, ls, spent) && AllLinesEarlier(P, |tl|, ls)
  {
  }

  /** A tick on which nobody is in line. */
  lemma IdleKeeps(turns: Turns, P: Table, tl: seq<int>, ls: Levels<seq<int>>, spent: Levels<int>)
    requires LinesOk(turns, P, tl, ls, spent) && ls == Levels([], [], [])
    ensures LinesOk(turns, P, tl + [IDLE], ls, spent) && AllLinesEarlier(P, |tl| + 1, ls)
  {
  }

  function Joined(ls: Levels<seq<int>>, js: Levels<seq<int>>): Levels<seq<int>> {
    Levels(ls.l0 + js.l0, ls.l1 + js.l1, ls.l2 + js.l2)
  }

  ghost predicate JoinsOk(turns: Turns, P: Table, t: int, js: Levels<seq<int>>) {
    JoinOk(turns, P, t, js.l0, 0) && JoinOk(turns, P, t, js.l1, 1) && JoinOk(turns, P, t, js.l2, 2)
  }

  /** A tick's arrivals keep every line in order. */
  lemma JoinsKeep(turns: Turns, P: Table, tl: seq<int>, ls: Levels<seq<int>>, spent: Levels<int>,
      js: Levels<seq<int>>)
    requires LinesOk(turns, P, tl, ls, spent) && JoinsOk(turns, P, |tl|, js)
    requires ls == Levels([], [], []) || (AllLinesEarlier(P, |tl|, ls) && !turns.afresh(|tl|) && |tl| > 0)
    ensures LinesOk(turns, P, tl, Joined(ls, js), spent)
  {
    JoinKeeps(turns, P, tl, ls.l0, js.l0, 0, spent.l0);
    JoinKeeps(turns, P, tl, ls.l1, js.l1, 1, spent.l1);
    JoinKeeps(turns, P, tl, ls.l2, js.l2, 2, spent.l2);
  }

  /** Pids of the first `k` slots. */
  predicate InFirst(P: Table, l: seq<int>, k: nat) {
    forall p :: 0 <= p < |l| ==> IndexOf(P, l[p]) < k
  }

  /** The next slot of the table joins behind those before it. */
  lemma JoinNext(turns: Turns, P: Table, t: int, js: seq<int>, lv: int, k: nat)
    requires Fresh(P) && k < |P| && JoinOk(turns, P, t, js, lv) && InFirst(P, js, k)
    requires P[k].arrival == t && turns.entry(P[k]) == lv
    ensures JoinOk(turns, P, t, js + [P[k].pid], lv) && InFirst(P, js + [P[k].pid], k + 1)
  {
    IndexOfOwn(P, k);
  }

  lemma {:induction false} ArrivingJoin(turns: Turns, P: Table, ps: Table, t: int, k: nat)
    requires Fresh(P) && SameProcesses(P, ps) && k <= |P|
    requires forall i :: 0 <= i < |P| ==> turns.entry(P[i]) == 0
    ensures JoinOk(turns, P, t, ArrivingPids(ps, t, k), 0) && InFirst(P, ArrivingPids(ps, t, k), k)
  {
    if k > 0 {
      ArrivingJoin(turns, P, ps, t, k - 1);
      if ps[k - 1].arrival == t { JoinNext(turns, P, t, ArrivingPids(ps, t, k - 1), 0, k - 1); }
    }
  }

  // ---------- Afresh ----------

  predicate InTableOrder(P: Table, l: seq<int>) {
    && (forall p :: 0 <= p < |l| ==> IndexOf(P, l[p]) >= 0)
    && (forall p, q :: 0 <= p < q < |l| ==> IndexOf(P, l[p]) < IndexOf(P, l[q]))
  }

  lemma OrderNext(P: Table, l: seq<int>, k: nat)
    requires Fresh(P) && k < |P| && InTableOrder(P, l) && InFirst(P, l, k)
    ensures InTableOrder(P, l + [P[k].pid]) && InFirst(P, l + [P[k].pid], k + 1)
  {
    IndexOfOwn(P, k);
  }

  /** `x` had the last tick and is in the middle of its turn. */
  predicate InMidTurn(turns: Turns, P: Table, tl: seq<int>, x: int) {
    HasArrived(P, |tl|, x) && HadTick(turns, Stands(turns, P, tl, x), |tl|).used > 0
  }

  lemma StandsAfresh(turns: Turns, P: Table, tl: seq<int>, next: int, x: int)
    requires turns.afresh(|tl| + 1) && HasArrived(P, |tl| + 1, x)
    requires forall i :: 0 <= i < |P| ==> turns.entry(P[i]) == 0
    ensures Stands(turns, P, tl + [next], x)
         == Standing(0, 0, if x == next && InMidTurn(turns, P, tl, x) then 2 * |tl| + 1 else 2 * |tl| + 2)
  {
    assert (tl + [next])[..|tl|] == tl;
  }

  /** When all start afresh they are in one line: whoever is in the middle of its turn on the CPU,
      and then everybody else in table order. */
  lemma AfreshKeeps(turns: Turns, P: Table, tl: seq<int>, next: int, first: seq<int>, others: seq<int>)
    requires turns.afresh(|tl| + 1) && forall i :: 0 <= i < |P| ==> turns.entry(P[i]) == 0
    requires InTableOrder(P, others) && forall p :: 0 <= p < |others| ==> HasArrived(P, |tl| + 1, others[p])
    requires first == [] || first == [next]
    requires first != [] ==> InMidTurn(turns, P, tl, next) && next !in others
    requires first == [] && next in others ==> !InMidTurn(turns, P, tl, next)
    ensures LineOk(turns, P, tl + [next], first + others, 0, 0)
  {
    var l, ext := first + others, tl + [next];
    forall p | 0 <= p < |l|
      ensures PlaceOk(turns, P, ext, l, 0, 0, p)
      ensures Stands(turns, P, ext, l[p]).since == 2 * |tl| + if p < |first| then 1 else 2
    {
      if p >= |first| { assert l[p] == others[p - |first|] && l[p] in others; }
      StandsAfresh(turns, P, tl, next, l[p]);
    }
    forall p, q | 0 <= p < q < |l|
      ensures CameBefore(turns, P, ext, l[p], l[q])
    {
      if p >= |first| { assert l[p] == others[p - |first|] && l[q] == others[q - |first|]; }
    }
  }

  // ---------- The states of MLQ and MLFQ ----------

  function LinesOf(s: State): Levels<seq<int>> {
    Levels(Line(s, 0), Line(s, 1), Line(s, 2))
  }

  /** What the head of level `lv` has had of its turn, from what the scheduler keeps. */
  function SpentAt(s: State, quantum: Levels<int>, lv: int): int {
    if s.running != IDLE && s.level == lv then quantum.At(lv) - s.left
    else if s.m.saved.At(lv) > 0 then quantum.At(lv) - s.m.saved.At(lv)
    else 0
  }

  function SpentOf(s: State, quantum: Levels<int>): Levels<int> {
    Levels(SpentAt(s, quantum, 0), SpentAt(s, quantum, 1), SpentAt(s, quantum, 2))
  }

  lemma HeldInLines(s: State)
    requires s.running != IDLE ==> 0 <= s.level <= 2
    ensures multiset(Held(s)) == multiset(Line(s, 0)) + multiset(Line(s, 1)) + multiset(Line(s, 2))
  {
  }

  lemma {:induction false} DistinctByCount(l: seq<int>, m: multiset<int>)
    requires multiset(l) <= m && forall x :: m[x] <= 1
    ensures Distinct(l)
  {
    forall p, q | 0 <= p < q < |l|
      ensures l[p] != l[q]
    {
      assert l == l[..p] + [l[p]] + l[p + 1..q] + [l[q]] + l[q + 1..];
      assert l[p] == l[q] ==> multiset(l)[l[p]] >= 2;
    }
  }

  lemma DistinctLine(b: State, ps: Table, t: nat, lv: int)
    requires MidRun(ps, t) && Lists(Held(b), ps, t) && (b.running != IDLE ==> 0 <= b.level <= 2) && 0 <= lv <= 2
    ensures Distinct(Line(b, lv))
  {
    HeldInLines(b);
    forall x ensures multiset(Held(b))[x] <= 1 { ListsIff(Held(b), ps, t, x); }
    DistinctByCount(Line(b, lv), multiset(Held(b)));
  }

  /** The running process heads its level's line and is nowhere else. */
  lemma RunningOnce(b: State, ps: Table, t: nat)
    requires MidRun(ps, t) && Lists(Held(b), ps, t) && b.running != IDLE && 0 <= b.level <= 2
    ensures HeadOnce(LinesOf(b), b.level) && LinesOf(b).At(b.level)[0] == b.running
  {
    HeldOnce(b, ps, t);
    DistinctLine(b, ps, t, b.level);
  }

  /** The first line with anybody in it, and its head. */
  ghost predicate HeadsFirst(ls: Levels<seq<int>>, next: int, lv: int) {
    if next == IDLE then ls == Levels([], [], [])
    else 0 <= lv <= 2 && ls.At(lv) != [] && ls.At(lv)[0] == next && forall k :: 0 <= k < lv ==> ls.At(k) == []
  }

  lemma EverybodyInLine(P: Table, tl: seq<int>, ps: Table, a: State)
    requires Fresh(P) && PlayedTable(P, tl, |tl|, ps) && MidRun(ps, |tl|) && Lists(Held(a), ps, |tl|)
    requires a.running != IDLE ==> 0 <= a.level <= 2
    ensures InLine(P, tl, LinesOf(a))
  {
    PlayedActive(P, tl, ps);
    HeldInLines(a);
    forall j | 0 <= j < |P| && ActiveAt(P, tl, j, |tl|)
      ensures P[j].pid in Line(a, 0) || P[j].pid in Line(a, 1) || P[j].pid in Line(a, 2)
    {
      IndexOfOwn(ps, j);
      ListsIff(Held(a), ps, |tl|, P[j].pid);
      assert P[j].pid in multiset(Held(a));
    }
  }

  /** The choice of a state whose lines are in order serves the ranking. */
  lemma StateServes(turns: Turns, quantum: Levels<int>, P: Table, tl: seq<int>, ps: Table, a: State, next: int, lv: int)
    requires Fresh(P) && PlayedTable(P, tl, |tl|, ps) && MidRun(ps, |tl|) && Lists(Held(a), ps, |tl|)
    requires a.running != IDLE ==> 0 <= a.level <= 2
    requires LinesOk(turns, P, tl, LinesOf(a), SpentOf(a, quantum)) && HeadsFirst(LinesOf(a), next, lv)
    requires next == IDLE || Runnable(ps, next, |tl|)
    ensures Serves(TurnRank(turns), P, tl, next)
  {
    PlayedActive(P, tl, ps);
    EverybodyInLine(P, tl, ps, a);
    if next == IDLE {
      assert forall j :: 0 <= j < |P| ==> !ActiveAt(P, tl, j, |tl|);
    } else {
      SameIndex(P, ps, next);
      HeadServes(turns, P, tl, LinesOf(a), SpentOf(a, quantum), lv);
    }
  }

  /** Being dispatched uses nothing of a turn. */
  lemma TakeSpends(s: State, quantum: Levels<int>, lv: int)
    requires s.running == IDLE && SliceOk(s, quantum) && 0 <= lv <= 2 && NotQueued(s, IDLE)
    ensures SpentAt(TakeHighest(s, quantum).0, quantum, lv) == SpentAt(s, quantum, lv)
  {
  }

  /** Being displaced costs nothing of it. */
  lemma PutBackSpends(s: State, quantum: Levels<int>, lv: int)
    requires s.running != IDLE && SliceOk(s, quantum) && 0 <= lv <= 2
    requires 0 <= quantum.l0 && 0 <= quantum.l1 && 0 <= quantum.l2
    ensures SpentAt(PutBack(s), quantum, lv) == SpentAt(s, quantum, lv)
  {
  }
}
