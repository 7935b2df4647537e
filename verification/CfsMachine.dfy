/** `src/sched/cfs.c` as it runs.

    The 64-bit unsigned virtual runtimes are kept as integers: `CfsFairness.StaysInOrder`
    bounds them far below the point of wrapping. */
module CfsMachine {
  import opened Processes
  import opened Selection
  import ScanMachines
  import Spec = Cfs

  class CfsState {
    const procs: array<Process>
    const vruntime: array<int>
    var running: int

    ghost predicate Valid()
      reads this, procs
    {
      && vruntime.Length == MAX_PROCESSES + 1
      && PidsFit(procs[..])
    }

    ghost function View(): Spec.State
      reads this, vruntime
    {
      Spec.State(vruntime[..], running)
    }

    constructor (table: array<Process>)
      requires PidsFit(table[..])
      ensures Valid() && View() == Spec.Init() && procs == table && fresh(vruntime)
    {
      procs := table;
      vruntime := new int[MAX_PROCESSES + 1](_ => 0);
      running := IDLE;
    }

    method OnArrival(p: Process, tick: int)
      requires Valid() && 0 <= p.pid <= MAX_PROCESSES
      modifies vruntime
      ensures Valid() && View() == Spec.OnArrival(old(View()), procs[..], p, tick)
    {
      var min, found, i := 0, false, 0;
      while i < procs.Length
        invariant 0 <= i <= procs.Length
        invariant Spec.MinOther(vruntime[..], procs[..], p.pid, tick, i) == if found then Some(min) else None
      {
        var q := procs[i];
        if q.pid != p.pid && q.arrival <= tick && q.remaining > 0 {
          if !found || vruntime[q.pid] < min {
            min, found := vruntime[q.pid], true;
          }
        }
        i := i + 1;
      }
      vruntime[p.pid] := if found then min else 0;
    }

    /** The slot of the least virtual runtime among the active processes, or -1. */
    method Scan(tick: int) returns (best: int)
      requires Valid()
      ensures best == Best(procs[..], tick, ByVruntime(vruntime[..]), procs.Length)
    {
      best := -1;
      var i := 0;
      while i < procs.Length
        invariant 0 <= i <= procs.Length && best == Best(procs[..], tick, ByVruntime(vruntime[..]), i)
      {
        var p := procs[i];
        if p.arrival <= tick && p.remaining > 0 {
          if best < 0 || vruntime[p.pid] < vruntime[procs[best].pid] {
            best := i;
          }
        }
        i := i + 1;
      }
    }

    method PickNext(currentPid: int, tick: int) returns (next: int)
      requires Valid()
      modifies this
      ensures Valid() && (View(), next) == Spec.PickNext(old(View()), procs[..], tick)
    {
      var best := Scan(tick);
      if best < 0 {
        running := IDLE;
        return IDLE;
      }
      var incumbent := ScanMachines.Find(procs, running);
      if incumbent >= 0 && procs[incumbent].remaining > 0
          && vruntime[procs[best].pid] == vruntime[procs[incumbent].pid] {
        best := incumbent;
      }
      running := procs[best].pid;
      return running;
    }

    method OnTickEnd(runningPid: int, tick: int)
      requires Valid()
      modifies vruntime
      ensures Valid() && View() == Spec.OnTickEnd(old(View()), procs[..], runningPid)
    {
      var k := ScanMachines.Find(procs, runningPid);
      if k < 0 {
        return;
      }
      vruntime[runningPid] := vruntime[runningPid] + Spec.NICE_0_LOAD / Spec.WeightOf(procs[k].nice);
    }

    method OnComplete(p: Process, tick: int)
      requires Valid()
      modifies this
      ensures Valid() && View() == Spec.OnComplete(old(View()))
    {
      running := IDLE;
    }
  }
}
