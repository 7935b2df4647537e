/** `src/sched/fcfs.c` as it runs: a plain array and three indices, updated in place.

    Each method is proved to do to the sequence in the array what the function of the same
    name in `Fcfs` does. */
module FcfsMachine {
  import opened Processes
  import Spec = Fcfs

  class FcfsState {
    const queue: array<int>
    var head: int
    var tail: int
    var running: int

    ghost predicate Valid()
      reads this
    {
      queue.Length == MAX_PROCESSES && 0 <= head <= tail <= MAX_PROCESSES
    }

    ghost function View(): Spec.State
      reads this, queue
      requires Valid()
    {
      Spec.State(queue[..tail], head, running)
    }

    constructor ()
      ensures Valid() && View() == Spec.Init() && fresh(queue)
    {
      queue := new int[MAX_PROCESSES];
      head := 0;
      tail := 0;
      running := IDLE;
    }

    method OnArrival(p: Process, tick: int)
      requires Valid() && tail < MAX_PROCESSES
      modifies this, queue
      ensures Valid() && View() == Spec.OnArrival(old(View()), p.pid)
    {
      queue[tail] := p.pid;
      tail := tail + 1;
    }

    method PickNext(currentPid: int, tick: int) returns (next: int)
      requires Valid()
      modifies this
      ensures Valid() && (View(), next) == Spec.PickNext(old(View()))
    {
      if running != IDLE {
        return running;
      }
      if head < tail {
        running := queue[head];
        head := head + 1;
        return running;
      }
      return IDLE;
    }

    method OnTickEnd(runningPid: int, tick: int)
      requires Valid()
      ensures Valid() && View() == old(View())
    {
    }

    method OnComplete(p: Process, tick: int)
      requires Valid()
      modifies this
      ensures Valid() && View() == Spec.OnComplete(old(View()))
    {
      running := IDLE;
    }
  }
}
