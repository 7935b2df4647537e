/** `src/sched/rr.c` as it runs: a ring buffer, updated in place.

    Each method is proved to do to the sequence in the ring what the function of the same
    name in `RoundRobin` does. */
module RoundRobinMachine {
  import opened Processes
  import Rings
  import Spec = RoundRobin

  class RrState {
    const queue: array<int>
    var head: int
    var count: int
    var running: int
    var quantum: int
    var left: int

    ghost predicate Valid()
      reads this
    {
      queue.Length == MAX_PROCESSES && 0 <= head < MAX_PROCESSES && 0 <= count <= MAX_PROCESSES
    }

    ghost function View(): Spec.State
      reads this, queue
      requires Valid()
    {
      Spec.State(Rings.Ring(queue[..], head, count), running, quantum, left)
    }

    constructor (cfgQuantum: int)
      ensures Valid() && View() == Spec.Init(cfgQuantum) && fresh(queue)
    {
      queue := new int[MAX_PROCESSES];
      head := 0;
      count := 0;
      running := IDLE;
      quantum := if cfgQuantum > 0 then cfgQuantum else Spec.DEFAULT_QUANTUM;
      left := 0;
    }

    method Push(pid: int)
      requires Valid() && count < MAX_PROCESSES
      modifies this`count, queue
      ensures Valid() && View() == Spec.Push(old(View()), pid)
    {
      Rings.PushTail(queue[..], head, count, pid);
      ghost var before := queue[..];
      queue[(head + count) % MAX_PROCESSES] := pid;
      assert queue[..] == before[(head + count) % MAX_PROCESSES := pid];
      count := count + 1;
    }

    method Pop() returns (pid: int)
      requires Valid() && count > 0
      modifies this`head, this`count
      ensures Valid() && pid == old(View()).queue[0]
      ensures View() == old(View()).(queue := old(View()).queue[1..])
    {
      Rings.PopHead(queue[..], head, count);
      pid := queue[head];
      head := (head + 1) % MAX_PROCESSES;
      count := count - 1;
    }

    method OnArrival(p: Process, tick: int)
      requires Valid() && count < MAX_PROCESSES
      modifies this, queue
      ensures Valid() && View() == Spec.Push(old(View()), p.pid)
    {
      Push(p.pid);
    }

    method PickNext(currentPid: int, tick: int) returns (next: int)
      requires Valid()
      modifies this
      ensures Valid() && (View(), next) == Spec.PickNext(old(View()))
    {
      if running != IDLE && left > 0 {
        return running;
      }
      if count > 0 {
        running := Pop();
        left := quantum;
        return running;
      }
      running := IDLE;
      return IDLE;
    }

    method OnTickEnd(runningPid: int, tick: int)
      requires Valid() && (running != IDLE ==> count < MAX_PROCESSES)
      modifies this, queue
      ensures Valid() && View() == Spec.OnTickEnd(old(View()), runningPid)
    {
      if runningPid == IDLE {
        return;
      }
      left := left - 1;
      if running != IDLE && left <= 0 {
        Push(running);
        running := IDLE;
      }
    }

    method OnComplete(p: Process, tick: int)
      requires Valid()
      modifies this
      ensures Valid() && View() == Spec.OnComplete(old(View()))
    {
      running := IDLE;
      left := 0;
    }
  }
}
