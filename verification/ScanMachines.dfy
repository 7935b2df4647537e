/** `src/sched/sjf.c`, `src/sched/srtf.c` and `src/sched/priority.c` as they run.

    A loop over the table with a best-so-far, and the pid on the CPU. */
module ScanMachines {
  import opened Processes
  import opened Selection
  import Engine

  class SjfState {
    const procs: array<Process>
    var running: int

    constructor (table: array<Process>)
      ensures procs == table && running == IDLE
    {
      procs := table;
      running := IDLE;
    }

    method PickNext(currentPid: int, tick: int) returns (next: int)
      modifies this
      ensures (running, next) == Dispatch(ByBurst, old(running), procs[..], tick)
    {
      if running != IDLE {
        return running;
      }
      var best, i := -1, 0;
      while i < procs.Length
        invariant 0 <= i <= procs.Length && best == Best(procs[..], tick, ByBurst, i) && running == IDLE
      {
        var p := procs[i];
        if p.arrival <= tick && p.remaining > 0 {
          if best < 0 || p.burst < procs[best].burst {
            best := i;
          }
        }
        i := i + 1;
      }
      running := if best < 0 then IDLE else procs[best].pid;
      return running;
    }

    method OnComplete(p: Process, tick: int)
      modifies this
      ensures running == IDLE
    {
      running := IDLE;
    }
  }

  class PriorityNpState {
    const procs: array<Process>
    var running: int

    constructor (table: array<Process>)
      ensures procs == table && running == IDLE
    {
      procs := table;
      running := IDLE;
    }

    method PickNext(currentPid: int, tick: int) returns (next: int)
      modifies this
      ensures (running, next) == Dispatch(ByPriority, old(running), procs[..], tick)
    {
      if running != IDLE {
        return running;
      }
      var best, i := -1, 0;
      while i < procs.Length
        invariant 0 <= i <= procs.Length && best == Best(procs[..], tick, ByPriority, i) && running == IDLE
      {
        var p := procs[i];
        if p.arrival <= tick && p.remaining > 0 {
          if best < 0 || p.priority < procs[best].priority {
            best := i;
          }
        }
        i := i + 1;
      }
      running := if best < 0 then IDLE else procs[best].pid;
      return running;
    }

    method OnComplete(p: Process, tick: int)
      modifies this
      ensures running == IDLE
    {
      running := IDLE;
    }
  }

  /** The table lookup of `srtf.c`, `priority.c` and `cfs.c`. */
  method Find(procs: array<Process>, pid: int) returns (k: int)
    ensures k == Incumbent(procs[..], pid)
  {
    if pid == IDLE {
      return -1;
    }
    k := Engine.FindProcess(procs, pid);
  }

  class SrtfState {
    const procs: array<Process>
    var running: int

    constructor (table: array<Process>)
      ensures procs == table && running == IDLE
    {
      procs := table;
      running := IDLE;
    }

    method PickNext(currentPid: int, tick: int) returns (next: int)
      modifies this
      ensures (running, next) == Reselect(ByRemaining, old(running), procs[..], tick)
    {
      var best, i := -1, 0;
      while i < procs.Length
        invariant 0 <= i <= procs.Length && best == Best(procs[..], tick, ByRemaining, i) && running == old(running)
      {
        var p := procs[i];
        if p.arrival <= tick && p.remaining > 0 {
          if best < 0 || p.remaining < procs[best].remaining {
            best := i;
          }
        }
        i := i + 1;
      }
      if best < 0 {
        running := IDLE;
        return IDLE;
      }
      var incumbent := Find(procs, running);
      if incumbent >= 0 && procs[incumbent].remaining > 0 && procs[best].remaining == procs[incumbent].remaining {
        best := incumbent;
      }
      running := procs[best].pid;
      return running;
    }

    method OnComplete(p: Process, tick: int)
      modifies this
      ensures running == IDLE
    {
      running := IDLE;
    }
  }

  class PriorityPState {
    const procs: array<Process>
    var running: int

    constructor (table: array<Process>)
      ensures procs == table && running == IDLE
    {
      procs := table;
      running := IDLE;
    }

    method PickNext(currentPid: int, tick: int) returns (next: int)
      modifies this
      ensures (running, next) == Reselect(ByPriority, old(running), procs[..], tick)
    {
      var best, i := -1, 0;
      while i < procs.Length
        invariant 0 <= i <= procs.Length && best == Best(procs[..], tick, ByPriority, i) && running == old(running)
      {
        var p := procs[i];
        if p.arrival <= tick && p.remaining > 0 {
          if best < 0 || p.priority < procs[best].priority {
            best := i;
          }
        }
        i := i + 1;
      }
      if best < 0 {
        running := IDLE;
        return IDLE;
      }
      var incumbent := Find(procs, running);
      if incumbent >= 0 && procs[incumbent].remaining > 0 && procs[best].priority == procs[incumbent].priority {
        best := incumbent;
      }
      running := procs[best].pid;
      return running;
    }

    method OnComplete(p: Process, tick: int)
      modifies this
      ensures running == IDLE
    {
      running := IDLE;
    }
  }
}
