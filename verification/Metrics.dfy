/** The metrics of a finished run and the checks made on it: `src/metrics.c`. */
module MetricsReport {
  import opened Processes
  import opened Engine
  import opened Timelines
  import opened LittlesLaw

  datatype Metrics = Metrics(
    processes: int,
    totalTicks: int,
    busyTicks: int,
    idleTicks: int,
    avgTurnaround: real,
    avgWaiting: real,
    avgResponse: real,
    throughput: real,
    cpuUtilisation: real,
    contextSwitches: int,
    maxWaiting: int,
    varianceWaiting: real)

  function TotalResponse(ps: Table, k: nat): int
    requires k <= |ps|
  {
    if k == 0 then 0 else TotalResponse(ps, k - 1) + Response(ps[k - 1])
  }

  function SquaredDeviations(ps: Table, mean: real, k: nat): real
    requires k <= |ps|
  {
    if k == 0 then 0.0
    else
      var d := Waiting(ps[k - 1]) as real - mean;
      SquaredDeviations(ps, mean, k - 1) + d * d
  }

  function SumOfSquares(ps: Table, k: nat): real
    requires k <= |ps|
  {
    if k == 0 then 0.0 else SumOfSquares(ps, k - 1) + Waiting(ps[k - 1]) as real * Waiting(ps[k - 1]) as real
  }

  function SumOfProducts(ps: Table, mean: real, k: nat): real
    requires k <= |ps|
  {
    if k == 0 then 0.0 else SumOfProducts(ps, mean, k - 1) + mean * Waiting(ps[k - 1]) as real
  }

  function Repeated(m: real, k: nat): real {
    if k == 0 then 0.0 else Repeated(m, k - 1) + m
  }

  lemma SquareOfDifference(w: real, mean: real)
    ensures (w - mean) * (w - mean) == w * w - 2.0 * (mean * w) + mean * mean
  {
  }

  lemma {:induction false} DeviationsAre(ps: Table, mean: real, m: real, k: nat)
    requires k <= |ps| && m == mean * mean
    ensures SquaredDeviations(ps, mean, k) == SumOfSquares(ps, k) - 2.0 * SumOfProducts(ps, mean, k) + Repeated(m, k)
  {
    if k > 0 {
      DeviationsAre(ps, mean, m, k - 1);
      SquareOfDifference(Waiting(ps[k - 1]) as real, mean);
    }
  }

  lemma Distributes(mean: real, a: real, b: real)
    ensures mean * (a + b) == mean * a + mean * b
  {
  }

  lemma {:induction false} ProductsAre(ps: Table, mean: real, k: nat)
    requires k <= |ps|
    ensures SumOfProducts(ps, mean, k) == mean * TotalWaiting(ps, k) as real
  {
    if k > 0 {
      ProductsAre(ps, mean, k - 1);
      Distributes(mean, TotalWaiting(ps, k - 1) as real, Waiting(ps[k - 1]) as real);
    }
  }

  lemma {:induction false} RepeatedIs(m: real, k: nat)
    ensures Repeated(m, k) == m * k as real
  {
    if k > 0 {
      RepeatedIs(m, k - 1);
      Distributes(m, (k - 1) as real, 1.0);
    }
  }

  lemma DeviationsSum(ps: Table, n: real, mean: real, m: real, sum: real)
    requires n == |ps| as real && m == mean * mean && sum == TotalWaiting(ps, |ps|) as real
    ensures SquaredDeviations(ps, mean, |ps|) == SumOfSquares(ps, |ps|) - 2.0 * (mean * sum) + m * n
  {
    DeviationsAre(ps, mean, m, |ps|);
    ProductsAre(ps, mean, |ps|);
    RepeatedIs(m, |ps|);
  }

  lemma ProductOfMean(sum: real, n: real, mean: real, m: real)
    requires n > 0.0 && mean == sum / n && m == mean * mean
    ensures mean * sum == m * n
  {
    assert sum == mean * n;
  }

  lemma Quotient(a: real, n: real, m: real)
    requires n > 0.0
    ensures (a - m * n) / n == a / n - m
  {
  }

  /** The variance is the mean of the squares less the square of the mean. */
  lemma VarianceIs(ps: Table, n: real, mean: real, variance: real)
    requires |ps| > 0 && n == |ps| as real && mean == TotalWaiting(ps, |ps|) as real / n
    requires variance == SquaredDeviations(ps, mean, |ps|) / n
    ensures variance == SumOfSquares(ps, |ps|) / n - mean * mean
  {
    var sum, m := TotalWaiting(ps, |ps|) as real, mean * mean;
    DeviationsSum(ps, n, mean, m, sum);
    ProductOfMean(sum, n, mean, m);
    Quotient(SumOfSquares(ps, |ps|), n, m);
  }

  /** The largest waiting time among the first `k`, or 0 when none is positive. */
  function MaxWaiting(ps: Table, k: nat): (m: int)
    requires k <= |ps|
    ensures m >= 0 && forall i :: 0 <= i < k ==> Waiting(ps[i]) <= m
    ensures m > 0 ==> exists i :: 0 <= i < k && Waiting(ps[i]) == m
  {
    if k == 0 then 0
    else
      var m := MaxWaiting(ps, k - 1);
      if Waiting(ps[k - 1]) > m then Waiting(ps[k - 1]) else m
  }

  method CountBusy(r: RunResult) returns (busy: int)
    requires 0 <= r.totalTicks <= r.timeline.Length
    ensures busy == BusyTicks(r.timeline[..r.totalTicks], r.totalTicks)
  {
    busy := 0;
    var i := 0;
    while i < r.totalTicks
      invariant 0 <= i <= r.totalTicks && busy == BusyTicks(r.timeline[..r.totalTicks], i)
    {
      if r.timeline[i] != IDLE {
        busy := busy + 1;
      }
      i := i + 1;
    }
  }

  method SumSquares(procs: array<Process>, mean: real) returns (sum: real)
    ensures sum == SquaredDeviations(procs[..], mean, procs.Length)
  {
    sum := 0.0;
    var i := 0;
    while i < procs.Length
      invariant 0 <= i <= procs.Length && sum == SquaredDeviations(procs[..], mean, i)
    {
      var wt := procs[i].completion - procs[i].arrival - procs[i].burst;
      var d := wt as real - mean;
      sum := sum + d * d;
      i := i + 1;
    }
  }

  method Compute(procs: array<Process>, r: RunResult) returns (m: Metrics)
    requires procs.Length > 0 && 0 < r.totalTicks <= r.timeline.Length
    ensures var ps, n, tl := procs[..], procs.Length, r.timeline[..r.totalTicks];
            && m.processes == n && m.totalTicks == r.totalTicks && m.contextSwitches == r.contextSwitches
            && m.busyTicks == BusyTicks(tl, |tl|) && m.idleTicks == |tl| - BusyTicks(tl, |tl|)
            && m.avgTurnaround == TotalTurnaround(ps, n) as real / n as real
            && m.avgWaiting == TotalWaiting(ps, n) as real / n as real
            && m.avgResponse == TotalResponse(ps, n) as real / n as real
            && m.maxWaiting == MaxWaiting(ps, n)
            && m.varianceWaiting == SquaredDeviations(ps, m.avgWaiting, n) / n as real
            && m.throughput == n as real / r.totalTicks as real
            && m.cpuUtilisation == m.busyTicks as real / r.totalTicks as real
  {
    var n, total := procs.Length, r.totalTicks;
    var busy := CountBusy(r);
    var sumTat, sumWt, sumRt, maxWt, i := 0, 0, 0, 0, 0;
    while i < n
      invariant 0 <= i <= n
      invariant sumTat == TotalTurnaround(procs[..], i) && sumWt == TotalWaiting(procs[..], i)
      invariant sumRt == TotalResponse(procs[..], i) && maxWt == MaxWaiting(procs[..], i)
    {
      var tat := procs[i].completion - procs[i].arrival;
      var wt := tat - procs[i].burst;
      var rt := procs[i].startTick - procs[i].arrival;
      sumTat := sumTat + tat;
      sumWt := sumWt + wt;
      sumRt := sumRt + rt;
      if wt > maxWt {
        maxWt := wt;
      }
      i := i + 1;
    }
    var meanWt := sumWt as real / n as real;
    var variance := SumSquares(procs, meanWt);
    m := Metrics(n, total, busy, total - busy,
                 sumTat as real / n as real, meanWt, sumRt as real / n as real,
                 n as real / total as real, busy as real / total as real,
                 r.contextSwitches, maxWt, variance / n as real);
  }

  /** Invariants 8, 3, 5, 6 and 7 for one process. */
  predicate ProcessOk(p: Process) {
    && p.completion != NOT_STARTED && p.startTick != NOT_STARTED
    && p.startTick >= p.arrival && p.completion >= p.arrival + p.burst
    && 0 <= Response(p) <= Waiting(p)
  }

  /** Everything the checker looks at. */
  ghost predicate ChecksPass(ps: Table, tl: seq<int>, m: Metrics) {
    && m.busyTicks == SumBurst(ps, |ps|)
    && m.totalTicks == m.busyTicks + m.idleTicks
    && (forall i :: 0 <= i < |ps| ==> ProcessOk(ps[i]))
    && forall t :: 0 <= t < |tl| ==> tl[t] == IDLE || IndexOf(ps, tl[t]) >= 0
  }

  method PidsKnown(procs: array<Process>, r: RunResult) returns (ok: bool)
    requires 0 <= r.totalTicks <= r.timeline.Length
    ensures var tl := r.timeline[..r.totalTicks];
            ok <==> forall t :: 0 <= t < |tl| ==> tl[t] == IDLE || IndexOf(procs[..], tl[t]) >= 0
  {
    ghost var tl := r.timeline[..r.totalTicks];
    var i := 0;
    while i < r.totalTicks
      invariant 0 <= i <= r.totalTicks
      invariant forall t :: 0 <= t < i ==> tl[t] == IDLE || IndexOf(procs[..], tl[t]) >= 0
    {
      var pid := r.timeline[i];
      assert pid == tl[i];
      if pid != IDLE {
        var j := FindProcess(procs, pid);
        if j < 0 {
          return false;
        }
      }
      i := i + 1;
    }
    return true;
  }

  method CheckInvariants(procs: array<Process>, r: RunResult, m: Metrics) returns (rc: int)
    requires 0 <= r.totalTicks <= r.timeline.Length
    ensures rc == 0 || rc == -1
    ensures rc == 0 <==> ChecksPass(procs[..], r.timeline[..r.totalTicks], m)
    ensures rc == 0 ==>
              forall i :: 0 <= i < procs.Length ==>
                var p := procs[i];
                && p.completion != -1 && p.startTick != -1
                && p.arrival <= p.startTick && p.arrival + p.burst <= p.completion
                && 0 <= p.startTick - p.arrival <= p.completion - p.arrival - p.burst
  {
    var sumBurst, i := 0, 0;
    while i < procs.Length
      invariant 0 <= i <= procs.Length && sumBurst == SumBurst(procs[..], i)
    {
      sumBurst := sumBurst + procs[i].burst;
      i := i + 1;
    }
    if m.busyTicks != sumBurst || m.totalTicks != m.busyTicks + m.idleTicks {
      return -1;
    }
    i := 0;
    while i < procs.Length
      invariant 0 <= i <= procs.Length && forall j :: 0 <= j < i ==> ProcessOk(procs[..][j])
    {
      var p := procs[i];
      assert p == procs[..][i];
      if p.completion == NOT_STARTED || p.startTick == NOT_STARTED || p.startTick < p.arrival
         || p.completion < p.arrival + p.burst {
        return -1;
      }
      var wt := p.completion - p.arrival - p.burst;
      var rt := p.startTick - p.arrival;
      if rt < 0 || rt > wt {
        return -1;
      }
      i := i + 1;
    }
    assert forall j :: 0 <= j < procs.Length ==> procs[..][j] == procs[j];
    var ok := PidsKnown(procs, r);
    rc := if ok then 0 else -1;
  }

  /** Whatever scheduler produced it, an accepted run passes every check. */
  lemma AcceptedRunsPass<S>(sc: Scheduler<S>, P: Table, m: Metrics)
    requires Fresh(P) && Run(sc, P).Some?
    requires var tl := Run(sc, P).value.timeline;
             m.busyTicks == BusyTicks(tl, |tl|) && m.idleTicks == |tl| - m.busyTicks && m.totalTicks == |tl|
    ensures ChecksPass(Run(sc, P).value.procs, Run(sc, P).value.timeline, m)
  {
    AcceptedRun(sc, P);
    var s := Run(sc, P).value;
    var tl := s.timeline;
    SameBursts(P, tl, |tl|, s.procs, |P|);
    forall i | 0 <= i < |P|
      ensures ProcessOk(s.procs[i]) && s.procs[i].pid == P[i].pid
    {
      Books(P, tl, i, |tl|);
      PlayedStatic(P[i], tl, |tl|);
      assert s.procs[i] == Played(P[i], tl, |tl|);
    }
    forall t | 0 <= t < |tl|
      ensures tl[t] == IDLE || IndexOf(s.procs, tl[t]) >= 0
    {
      assert LegalTick(P, tl, t);
      SameIndex(P, s.procs, tl[t]);
    }
  }

  lemma {:induction false} SameBursts(P: Table, tl: seq<int>, t: nat, ps: Table, k: nat)
    requires t <= |tl| && PlayedTable(P, tl, t, ps) && k <= |P|
    ensures SumBurst(ps, k) == SumBurst(P, k)
  {
    if k > 0 {
      SameBursts(P, tl, t, ps, k - 1);
      PlayedStatic(P[k - 1], tl, t);
    }
  }

  /** Run, measure and check, as `run_one` in `src/main.c` does: the checks never reject a run
      that the engine accepts. */
  method RunOne<S>(sched: Scheduler<S>, procs: array<Process>) returns (rc: int, m: Metrics, out: RunResult)
    requires Loaded(procs[..])
    modifies procs
    ensures rc == 0 <==> Run(sched, old(procs[..])).Some?
    ensures rc == 0 ==>
              var s := Run(sched, old(procs[..])).value;
              && procs[..] == s.procs
              && m.totalTicks == |s.timeline| && m.contextSwitches == s.switches
              && m.busyTicks == SumBurst(s.procs, |s.procs|)
              && m.avgWaiting == TotalWaiting(s.procs, |s.procs|) as real / |s.procs| as real
              && m.maxWaiting == MaxWaiting(s.procs, |s.procs|)
  {
    ghost var P := procs[..];
    out := new RunResult();
    m := Metrics(0, 0, 0, 0, 0.0, 0.0, 0.0, 0.0, 0.0, 0, 0, 0.0);
    rc := EngineRun(sched, procs, out);
    if rc != 0 {
      return;
    }
    AcceptedRun(sched, P);
    TakesTime(P, Run(sched, P).value.timeline);
    m := Compute(procs, out);
    AcceptedRunsPass(sched, P, m);
    rc := CheckInvariants(procs, out, m);
  }

  lemma TakesTime(P: Table, tl: seq<int>)
    requires Fresh(P) && |P| > 0 && CompleteRun(P, tl)
    ensures |tl| > 0
  {
    assert P[0].remaining > 0;
  }
}
