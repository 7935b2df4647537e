/** `src/sched/mlq.c` as it runs.

    The three rings are a `QueueBank`; the pid on the CPU, its level and its slice are fields,
    updated in place. */
module MlqMachine {
  import opened Processes
  import opened QueueBanks
  import Spec = Mlq
  import Multi = MultiQueue

  class MlqState {
    const bank: QueueBank
    var running: int
    var level: int
    var left: int

    ghost predicate Valid()
      reads this, bank.head, bank.count
    {
      bank.Valid() && (running != IDLE ==> 0 <= level < Multi.NLEVELS)
    }

    /** No level is full while somebody runs, so the running process can always be queued. */
    ghost predicate HasRoom()
      reads this, bank.head, bank.count
      requires Valid()
    {
      running != IDLE ==> forall lv :: 0 <= lv < Multi.NLEVELS ==> bank.count[lv] < MAX_PROCESSES
    }

    ghost function View(): Multi.State
      reads this, bank.queue, bank.head, bank.count, bank.saved
      requires Valid()
    {
      Multi.State(bank.View(), running, level, left)
    }

    constructor ()
      ensures Valid() && View() == Multi.INIT
      ensures fresh(bank) && fresh(bank.queue) && fresh(bank.head) && fresh(bank.count) && fresh(bank.saved)
    {
      bank := new QueueBank();
      running := IDLE;
      level := -1;
      left := 0;
    }

    method OnArrival(p: Process, tick: int)
      requires Valid() && 0 <= p.queue < Multi.NLEVELS && bank.count[p.queue] < MAX_PROCESSES
      modifies bank.queue, bank.count
      ensures Valid() && View() == Spec.OnArrival(old(View()), p)
    {
      bank.PushTail(p.queue, p.pid);
    }

    method PickNext(currentPid: int, tick: int) returns (next: int)
      requires Valid() && HasRoom()
      modifies this, bank.queue, bank.head, bank.count, bank.saved
      ensures Valid() && (View(), next) == Spec.PickNext(old(View()))
    {
      if running != IDLE {
        var top := bank.Highest();
        if top >= 0 && top < level {
          bank.PushHead(level, running, left);
          running := IDLE;
        } else if Spec.LEVEL_QUANTUM.At(level) == 0 || left > 0 {
          return running;
        }
      }
      next := TakeHighest();
    }

    method TakeHighest() returns (next: int)
      requires Valid()
      modifies this, bank.head, bank.count, bank.saved
      ensures Valid() && (View(), next) == Multi.TakeHighest(old(View()), Spec.LEVEL_QUANTUM)
    {
      var top := bank.Highest();
      if top < 0 {
        running := IDLE;
        level := -1;
        return IDLE;
      }
      running, left := bank.PopHead(top, Spec.LEVEL_QUANTUM);
      level := top;
      return running;
    }

    method OnTickEnd(runningPid: int, tick: int)
      requires Valid() && HasRoom()
      modifies this, bank.queue, bank.count
      ensures Valid() && View() == Spec.OnTickEnd(old(View()), runningPid)
    {
      if runningPid == IDLE || running == IDLE {
        return;
      }
      if Spec.LEVEL_QUANTUM.At(level) == 0 {
        return;
      }
      left := left - 1;
      if left <= 0 {
        bank.PushTail(level, running);
        running := IDLE;
      }
    }

    method OnComplete(p: Process, tick: int)
      requires Valid()
      modifies this
      ensures Valid() && View() == Multi.OnComplete(old(View()))
    {
      running := IDLE;
      level := -1;
      left := 0;
    }
  }
}
