/** The three ring buffers of `mlq.c` and `mlfq.c` as they run.

    `queue[lv][i]` is kept at `lv * MAX_PROCESSES + i`, with a head, a count and a saved slice
    per level. Each method does to the queues what the function of its name does. */
module QueueBanks {
  import opened Processes
  import opened Rings
  import Spec = MultiQueue

  class QueueBank {
    const queue: array<int>
    const head: array<int>
    const count: array<int>
    const saved: array<int>

    ghost predicate Valid()
      reads head, count
    {
      && queue.Length == Spec.NLEVELS * MAX_PROCESSES
      && head.Length == Spec.NLEVELS && count.Length == Spec.NLEVELS && saved.Length == Spec.NLEVELS
      && queue != head && queue != count && queue != saved && head != count && head != saved && count != saved
      && forall lv :: 0 <= lv < Spec.NLEVELS ==> 0 <= head[lv] < MAX_PROCESSES && 0 <= count[lv] <= MAX_PROCESSES
    }

    /** The array of one level. */
    ghost function Row(lv: int): (r: seq<int>)
      reads queue, head, count
      requires Valid() && 0 <= lv < Spec.NLEVELS
      ensures |r| == MAX_PROCESSES
    {
      queue[lv * MAX_PROCESSES..(lv + 1) * MAX_PROCESSES]
    }

    ghost function Level(lv: int): seq<int>
      reads queue, head, count
      requires Valid() && 0 <= lv < Spec.NLEVELS
    {
      Ring(Row(lv), head[lv], count[lv])
    }

    ghost function View(): Spec.Queues
      reads queue, head, count, saved
      requires Valid()
    {
      Spec.Queues(Spec.Levels(Level(0), Level(1), Level(2)), Spec.Levels(saved[0], saved[1], saved[2]))
    }

    constructor ()
      ensures Valid() && View() == Spec.EMPTY
      ensures fresh(queue) && fresh(head) && fresh(count) && fresh(saved)
    {
      queue := new int[Spec.NLEVELS * MAX_PROCESSES];
      head := new int[Spec.NLEVELS](_ => 0);
      count := new int[Spec.NLEVELS](_ => 0);
      saved := new int[Spec.NLEVELS](_ => 0);
    }

    /** Writes one slot of one level. */
    method Put(lv: int, i: int, pid: int)
      requires Valid() && 0 <= lv < Spec.NLEVELS && 0 <= i < MAX_PROCESSES
      modifies queue
      ensures Valid() && Row(lv) == old(Row(lv))[i := pid]
      ensures forall k :: 0 <= k < Spec.NLEVELS && k != lv ==> Row(k) == old(Row(k))
    {
      queue[lv * MAX_PROCESSES + i] := pid;
    }

    method PushTail(lv: int, pid: int)
      requires Valid() && 0 <= lv < Spec.NLEVELS && count[lv] < MAX_PROCESSES
      modifies queue, count
      ensures Valid() && View() == Spec.PushTail(old(View()), lv, pid)
      ensures forall k :: 0 <= k < Spec.NLEVELS ==> count[k] == old(count[k]) + (if k == lv then 1 else 0)
    {
      Rings.PushTail(Row(lv), head[lv], count[lv], pid);
      Put(lv, (head[lv] + count[lv]) % MAX_PROCESSES, pid);
      count[lv] := count[lv] + 1;
    }

    method PushHead(lv: int, pid: int, left: int)
      requires Valid() && 0 <= lv < Spec.NLEVELS && count[lv] < MAX_PROCESSES
      modifies queue, head, count, saved
      ensures Valid() && View() == Spec.PushHead(old(View()), lv, pid, left)
      ensures forall k :: 0 <= k < Spec.NLEVELS ==> count[k] == old(count[k]) + (if k == lv then 1 else 0)
    {
      Rings.PushHead(Row(lv), head[lv], count[lv], pid);
      var h := MoveBack(lv);
      Put(lv, h, pid);
      count[lv] := count[lv] + 1;
      saved[lv] := left;
      assert Level(lv) == [pid] + old(Level(lv));
    }

    /** Moves a level's head one slot back. */
    method MoveBack(lv: int) returns (h: int)
      requires Valid() && 0 <= lv < Spec.NLEVELS
      modifies head
      ensures Valid() && h == head[lv] == (old(head[lv]) + MAX_PROCESSES - 1) % MAX_PROCESSES
      ensures forall k :: 0 <= k < Spec.NLEVELS ==> Row(k) == old(Row(k))
      ensures forall k :: 0 <= k < Spec.NLEVELS && k != lv ==> head[k] == old(head[k]) && Level(k) == old(Level(k))
    {
      h := (head[lv] + MAX_PROCESSES - 1) % MAX_PROCESSES;
      head[lv] := h;
    }

    method PopHead(lv: int, quantum: Spec.Levels<int>) returns (pid: int, left: int)
      requires Valid() && 0 <= lv < Spec.NLEVELS && count[lv] > 0
      modifies head, count, saved
      ensures Valid() && View() == Spec.Popped(old(View()), lv)
      ensures pid == Spec.HeadPid(old(View()), lv) && left == Spec.HeadSlice(old(View()), lv, quantum)
    {
      Rings.PopHead(Row(lv), head[lv], count[lv]);
      pid := queue[lv * MAX_PROCESSES + head[lv]];
      head[lv] := (head[lv] + 1) % MAX_PROCESSES;
      count[lv] := count[lv] - 1;
      left := if saved[lv] > 0 then saved[lv] else quantum.At(lv);
      saved[lv] := 0;
    }

    method Highest() returns (lv: int)
      requires Valid()
      ensures lv == Spec.Highest(View())
    {
      lv := 0;
      while lv < Spec.NLEVELS
        invariant 0 <= lv <= Spec.NLEVELS
        invariant forall k :: 0 <= k < lv ==> count[k] == 0
      {
        if count[lv] > 0 {
          return;
        }
        lv := lv + 1;
      }
      lv := -1;
    }

    /** All levels empty. */
    method Clear()
      requires Valid()
      modifies head, count, saved
      ensures Valid() && View() == Spec.EMPTY
    {
      var lv := 0;
      while lv < Spec.NLEVELS
        invariant 0 <= lv <= Spec.NLEVELS && Valid()
        invariant forall k :: 0 <= k < lv ==> count[k] == 0 && saved[k] == 0
      {
        head[lv] := 0;
        count[lv] := 0;
        saved[lv] := 0;
        lv := lv + 1;
      }
    }
  }
}
