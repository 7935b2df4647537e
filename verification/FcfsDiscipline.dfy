/** FCFS serves in table order, as the timeline alone tells it. */
module FcfsDiscipline {
  import opened Processes
  import opened Engine
  import opened Timelines
  import opened Disciplines
  import Fcfs
  import FcfsWorstCase

  lemma FirstServes(P: Table, tl: seq<int>, ps: Table, next: int)
    requires Fresh(P) && PlayedTable(P, tl, |tl|, ps) && (next == IDLE || Runnable(ps, next, |tl|))
    requires next == IDLE ==> forall i :: 0 <= i < |P| ==> !Active(ps[i], |tl|)
    requires forall i :: 0 <= i < IndexOf(ps, next) ==> !Active(ps[i], |tl|)
    ensures Serves(FcfsRank(), P, tl, next)
  {
    if next == IDLE {
      ServesNobody(FcfsRank(), P, tl, ps);
    } else {
      ServesSlot(FcfsRank(), P, tl, ps, IndexOf(ps, next));
    }
  }

  lemma FcfsServes(P: Table, t: nat)
    requires Fresh(P)
    ensures After(Fcfs.FcfsScheduler(), P, t).Some? && After(Fcfs.FcfsScheduler(), P, t + 1).Some?
    ensures var s, s' := After(Fcfs.FcfsScheduler(), P, t).value, After(Fcfs.FcfsScheduler(), P, t + 1).value;
            Serves(FcfsRank(), P, s.timeline, s'.timeline[t])
  {
    var s, next := FcfsWorstCase.FcfsPicksFirst(P, t);
    var r := Unroll(Fcfs.FcfsScheduler(), P, t + 1);
    var n := StepShape(Fcfs.FcfsScheduler(), r, After(Fcfs.FcfsScheduler(), P, t + 1).value);
    assert After(Fcfs.FcfsScheduler(), P, t + 1).value.timeline[t] == next == n;
    FirstServes(P, s.timeline, s.procs, next);
  }

  lemma {:induction false} FcfsObeysFor(P: Table, t: nat)
    requires Fresh(P)
    ensures ObeysFor(Fcfs.FcfsScheduler(), P, FcfsRank(), t)
  {
    if t > 0 {
      FcfsObeysFor(P, t - 1);
      FcfsServes(P, t - 1);
      ObeysNext(Fcfs.FcfsScheduler(), P, FcfsRank(), t - 1);
    }
  }

  /** FCFS: on every tick of every run the CPU goes to the first active process of the table. */
  lemma FcfsObeys(P: Table)
    requires Fresh(P)
    ensures Obeys(Fcfs.FcfsScheduler(), P, FcfsRank())
  {
    forall t: nat ensures ObeysFor(Fcfs.FcfsScheduler(), P, FcfsRank(), t) { FcfsObeysFor(P, t); }
  }
}
