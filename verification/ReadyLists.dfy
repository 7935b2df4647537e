/** How the list of arrived, unfinished pids changes over a tick.

    Arrivals join it, and the process that executes leaves it exactly when it finishes; what
    each queueing policy holds is such a list, in an order of its own. */
module ReadyLists {
  import opened Processes
  import opened Engine

  /** `l` holds the ready pids of `tick`, each once, in some order. */
  ghost predicate Lists(l: seq<int>, ps: Table, tick: int) {
    multiset(l) == multiset(Ready(ps, tick))
  }

  lemma ListsIff(l: seq<int>, ps: Table, tick: int, x: int)
    requires Sorted(ps) && Lists(l, ps, tick)
    ensures x in l <==> IndexOf(ps, x) >= 0 && Active(ps[IndexOf(ps, x)], tick)
    ensures multiset(l)[x] <= 1
  {
    assert x in l <==> x in multiset(l);
    assert x in Ready(ps, tick) <==> x in multiset(Ready(ps, tick));
    InReady(ps, tick, x);
    ReadyDistinct(ps, tick, |ps|);
  }

  lemma ListsDistinct(l: seq<int>, ps: Table, tick: int, i: nat, j: nat)
    requires Sorted(ps) && Lists(l, ps, tick) && i < j < |l|
    ensures l[i] != l[j]
  {
    ListsIff(l, ps, tick, l[i]);
    assert l == l[..i] + [l[i]] + l[i + 1..j] + [l[j]] + l[j + 1..];
  }

  /** Whoever heads a ready list may run. */
  lemma ListsHead(l: seq<int>, ps: Table, tick: int)
    requires MidRun(ps, tick) && Lists(l, ps, tick) && l != []
    ensures l[0] >= 1 && Runnable(ps, l[0], tick)
  {
    ListsIff(l, ps, tick, l[0]);
  }

  lemma ListsNobody(ps: Table, tick: int)
    requires Lists([], ps, tick)
    ensures forall i :: 0 <= i < |ps| ==> !Active(ps[i], tick)
  {
    assert |multiset(Ready(ps, tick))| == |Ready(ps, tick)| == 0;
    ReadyEmpty(ps, tick);
  }

  lemma ListsLength(l: seq<int>, ps: Table, tick: int)
    requires Sorted(ps) && Lists(l, ps, tick)
    ensures |l| <= |ps|
  {
    assert |multiset(l)| == |l| && |multiset(Ready(ps, tick))| == |Ready(ps, tick)|;
    ReadyDistinct(ps, tick, |ps|);
  }

  lemma {:induction false} NobodyYet(ps: Table, k: nat)
    requires Fresh(ps) && k <= |ps|
    ensures ReadyPids(ps, -1, k) == []
  {
    if k > 0 { NobodyYet(ps, k - 1); }
  }

  lemma ListsAtStart(ps: Table)
    requires Fresh(ps)
    ensures Lists([], ps, -1)
  {
    NobodyYet(ps, |ps|);
  }

  lemma ListsArrivals(l: seq<int>, ps: Table, tick: int)
    requires MidRun(ps, tick) && Lists(l, ps, tick - 1)
    ensures Lists(l + Arriving(ps, tick), ps, tick)
  {
    ReadySplit(ps, tick, |ps|);
  }

  lemma ExecutedSlot(ps: Table, next: int, tick: int, i: nat)
    requires Runnable(ps, next, tick) && i < |ps| && next != IDLE
    ensures var p, j := Execute(ps, next, tick)[i], IndexOf(ps, next);
            p.pid == ps[i].pid && (Active(p, tick) <==> Active(ps[i], tick) && !(i == j && Finishes(ps, next)))
  {
  }

  /** The ready list after `next` has executed `tick`. */
  lemma {:induction false} ReadyExecute(ps: Table, next: int, tick: int, k: nat)
    requires Sorted(ps) && Runnable(ps, next, tick) && k <= |ps| && next != IDLE
    ensures var after := ReadyPids(Execute(ps, next, tick), tick, k);
            if Finishes(ps, next) && IndexOf(ps, next) < k
            then multiset(ReadyPids(ps, tick, k)) == multiset(after) + multiset{next}
            else after == ReadyPids(ps, tick, k)
  {
    if k > 0 {
      ReadyExecute(ps, next, tick, k - 1);
      ExecutedSlot(ps, next, tick, k - 1);
    }
  }

  lemma ListsExecute(l: seq<int>, ps: Table, next: int, tick: int)
    requires Sorted(ps) && Runnable(ps, next, tick) && next != IDLE
    requires if Finishes(ps, next) then Lists([next] + l, ps, tick) else Lists(l, ps, tick)
    ensures Lists(l, Execute(ps, next, tick), tick)
  {
    ReadyExecute(ps, next, tick, |ps|);
    if Finishes(ps, next) {
      assert multiset([next] + l) == multiset{next} + multiset(l);
      var after := multiset(Ready(Execute(ps, next, tick), tick));
      assert multiset(Ready(ps, tick)) == after + multiset{next};
      assert multiset(l) == multiset(Ready(ps, tick)) - multiset{next} == after;
    }
  }

  /** The running pid, as the head of a ready list. */
  function OnCpu(pid: int): (l: seq<int>) {
    if pid == IDLE then [] else [pid]
  }

  /** When the head of the ready list executes, the list loses it exactly if it finishes. */
  lemma {:induction false} ReadyHeadExecutes(ps: Table, tick: nat, next: int, k: nat)
    requires MidRun(ps, tick) && k <= |ps| && next != IDLE && Runnable(ps, next, tick)
    requires ReadyPids(ps, tick, k) != [] ==> ReadyPids(ps, tick, k)[0] == next
    ensures var l := ReadyPids(ps, tick, k);
            ReadyPids(Execute(ps, next, tick), tick, k) == (if Finishes(ps, next) && l != [] then l[1..] else l)
  {
    if k > 0 {
      var l := ReadyPids(ps, tick, k - 1);
      if l != [] { assert (l + [ps[k - 1].pid])[0] == l[0] && (l + [ps[k - 1].pid])[1..] == l[1..] + [ps[k - 1].pid]; }
      ReadyHeadExecutes(ps, tick, next, k - 1);
      InReadyPids(ps, tick, k - 1, next);
      if ps[k - 1].pid == next { IndexOfOwn(ps, k - 1); }
    }
  }
}
