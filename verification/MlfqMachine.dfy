/** `src/sched/mlfq.c` as it runs.

    As for MLQ, with the process table at hand for the boost, which rebuilds the rings from
    it, and the level of each pid recorded as the source records it. */
module MlfqMachine {
  import opened Processes
  import opened QueueBanks
  import Spec = Mlfq
  import Multi = MultiQueue

  predicate Fits(l: seq<int>) {
    forall i :: 0 <= i < |l| ==> 0 <= l[i] <= MAX_PROCESSES
  }

  predicate AllFit(m: Multi.Queues) { Fits(m.q.l0) && Fits(m.q.l1) && Fits(m.q.l2) }

  class MlfqState {
    const bank: QueueBank
    const procs: array<Process>
    const levelOf: array<int>
    var running: int
    var level: int
    var left: int

    /** Every pid held indexes the array of levels. */
    ghost predicate Valid()
      reads this, bank.queue, bank.head, bank.count, bank.saved
    {
      && bank.Valid() && levelOf.Length == MAX_PROCESSES + 1
      && levelOf != bank.queue && levelOf != bank.head && levelOf != bank.count && levelOf != bank.saved
      && AllFit(bank.View()) && (running != IDLE ==> 0 <= level < Multi.NLEVELS && 0 <= running <= MAX_PROCESSES)
    }

    /** No level is full while somebody runs, so the running process can always be queued. */
    ghost predicate HasRoom()
      reads this, bank.queue, bank.head, bank.count, bank.saved
      requires Valid()
    {
      running != IDLE ==> forall lv :: 0 <= lv < Multi.NLEVELS ==> bank.count[lv] < MAX_PROCESSES
    }

    ghost function View(): Multi.State
      reads this, bank.queue, bank.head, bank.count, bank.saved
      requires Valid()
    {
      Multi.State(bank.View(), running, level, left)
    }

    constructor (table: array<Process>)
      ensures Valid() && View() == Multi.INIT && procs == table
      ensures fresh(bank) && fresh(bank.queue) && fresh(bank.head) && fresh(bank.count) && fresh(bank.saved)
              && fresh(levelOf)
    {
      bank := new QueueBank();
      procs := table;
      levelOf := new int[MAX_PROCESSES + 1](_ => 0);
      running := IDLE;
      level := -1;
      left := 0;
    }

    method PushTail(lv: int, pid: int)
      requires Valid() && 0 <= lv < Multi.NLEVELS && bank.count[lv] < MAX_PROCESSES && 0 <= pid <= MAX_PROCESSES
      modifies bank.queue, bank.count, levelOf
      ensures Valid() && View() == old(View()).(m := Multi.PushTail(old(View()).m, lv, pid))
      ensures levelOf[..] == old(levelOf[..])[pid := lv]
      ensures forall k :: 0 <= k < Multi.NLEVELS ==> bank.count[k] == old(bank.count[k]) + (if k == lv then 1 else 0)
    {
      bank.PushTail(lv, pid);
      levelOf[pid] := lv;
    }

    method PushHead(lv: int, pid: int, slice: int)
      requires Valid() && 0 <= lv < Multi.NLEVELS && bank.count[lv] < MAX_PROCESSES && 0 <= pid <= MAX_PROCESSES
      modifies bank.queue, bank.head, bank.count, bank.saved, levelOf
      ensures Valid() && View() == old(View()).(m := Multi.PushHead(old(View()).m, lv, pid, slice))
      ensures levelOf[..] == old(levelOf[..])[pid := lv]
    {
      bank.PushHead(lv, pid, slice);
      levelOf[pid] := lv;
    }

    /** Rebuilds the queues from the table: everyone unfinished to the top level, the running
        process at its head. */
    method Boost(tick: int)
      requires Valid() && procs.Length <= MAX_PROCESSES && PidsFit(procs[..])
      requires running != IDLE ==> |Spec.Others(procs[..], tick, running, procs.Length)| < MAX_PROCESSES
      modifies this, bank.queue, bank.head, bank.count, bank.saved, levelOf
      ensures Valid() && View() == Spec.Boost(old(View()), procs[..], tick)
      ensures running == IDLE
    {
      bank.Clear();
      var i := 0;
      while i < procs.Length
        invariant 0 <= i <= procs.Length && Valid()
        invariant running == old(running) && level == old(level) && left == old(left)
        invariant bank.View() == Multi.Queues(Multi.Levels(Spec.Others(procs[..], tick, running, i), [], []),
                  Multi.Levels(0, 0, 0))
        invariant bank.count[0] == |Spec.Others(procs[..], tick, running, i)| <= i
      {
        var p := procs[i];
        if p.arrival <= tick && p.remaining > 0 && p.pid != running {
          PushTail(0, p.pid);
        }
        i := i + 1;
      }
      if running != IDLE {
        PushHead(0, running, Spec.LEVEL_QUANTUM.At(0));
        running := IDLE;
        level := -1;
        left := 0;
      }
    }

    method OnArrival(p: Process, tick: int)
      requires Valid() && bank.count[0] < MAX_PROCESSES && 0 <= p.pid <= MAX_PROCESSES
      modifies bank.queue, bank.count, levelOf
      ensures Valid() && View() == Spec.OnArrival(old(View()), p)
    {
      PushTail(0, p.pid);
    }

    method PickNext(currentPid: int, tick: int) returns (next: int)
      requires Valid() && HasRoom() && procs.Length <= MAX_PROCESSES && PidsFit(procs[..])
      requires running != IDLE ==> |Spec.Others(procs[..], tick, running, procs.Length)| < MAX_PROCESSES
      modifies this, bank.queue, bank.head, bank.count, bank.saved, levelOf
      ensures Valid() && (View(), next) == Spec.PickNext(old(View()), procs[..], tick)
    {
      if tick > 0 && tick % Spec.BOOST_INTERVAL == 0 {
        Boost(tick);
      }
      next := Select();
    }

    method Select() returns (next: int)
      requires Valid() && HasRoom()
      modifies this, bank.queue, bank.head, bank.count, bank.saved, levelOf
      ensures Valid() && (View(), next) == Spec.Select(old(View()))
    {
      if running != IDLE {
        var top := bank.Highest();
        if top >= 0 && top < level {
          PushHead(level, running, left);
          running := IDLE;
        } else if left > 0 {
          return running;
        }
      }
      next := TakeHighest();
    }

    method TakeHighest() returns (next: int)
      requires Valid()
      modifies this, bank.head, bank.count, bank.saved
      ensures Valid() && (View(), next) == Multi.TakeHighest(old(View()), Spec.LEVEL_QUANTUM)
    {
      var top := bank.Highest();
      if top < 0 {
        running := IDLE;
        level := -1;
        return IDLE;
      }
      running, left := bank.PopHead(top, Spec.LEVEL_QUANTUM);
      level := top;
      return running;
    }

    method OnTickEnd(runningPid: int, tick: int)
      requires Valid() && HasRoom()
      modifies this, bank.queue, bank.count, levelOf
      ensures Valid() && View() == Spec.OnTickEnd(old(View()), runningPid)
    {
      if runningPid == IDLE || running == IDLE {
        return;
      }
      left := left - 1;
      if left <= 0 {
        var next := if level + 1 < Multi.NLEVELS then level + 1 else level;
        PushTail(next, running);
        running := IDLE;
      }
    }

    method OnComplete(p: Process, tick: int)
      requires Valid()
      modifies this
      ensures Valid() && View() == Multi.OnComplete(old(View()))
    {
      running := IDLE;
      level := -1;
      left := 0;
    }
  }
}
