/** The ring buffers that `rr.c`, `mlq.c` and `mlfq.c` keep: a fixed array read as a sequence.

    The lemmas say what one write to the array, or a move of its head, does to the sequence;
    the in-place forms of the three schedulers rest on them. */
module Rings {
  import opened Processes

  ghost predicate RingOk(buf: seq<int>, head: int, count: int) {
    |buf| == MAX_PROCESSES && 0 <= head < MAX_PROCESSES && 0 <= count <= MAX_PROCESSES
  }

  /** The array index of the `i`-th entry. */
  function Slot(head: int, i: int): (k: int)
    ensures 0 <= k < MAX_PROCESSES
  {
    (head + i) % MAX_PROCESSES
  }

  /** The `count` entries from `head` on, around the end of the array. */
  ghost function Ring(buf: seq<int>, head: int, count: int): (r: seq<int>)
    requires RingOk(buf, head, count)
    ensures |r| == count && forall i :: 0 <= i < count ==> r[i] == buf[Slot(head, i)]
  {
    seq(count, i requires 0 <= i < count => buf[Slot(head, i)])
  }

  lemma PushTail(buf: seq<int>, head: int, count: int, x: int)
    requires RingOk(buf, head, count) && count < MAX_PROCESSES
    ensures Ring(buf[(head + count) % MAX_PROCESSES := x], head, count + 1) == Ring(buf, head, count) + [x]
  {
    var buf' := buf[(head + count) % MAX_PROCESSES := x];
    forall i | 0 <= i < count
      ensures buf'[Slot(head, i)] == buf[Slot(head, i)]
    {
      assert Slot(head, i) != Slot(head, count);
    }
  }

  lemma SlotAtHead(head: int)
    requires 0 <= head < MAX_PROCESSES
    ensures Slot(head, 0) == head
  {
  }

  /** Seen from the slot before the head, every entry is one place further on. */
  lemma SlotBehind(head: int, h: int, i: int)
    requires 0 <= head < MAX_PROCESSES && h == (head + MAX_PROCESSES - 1) % MAX_PROCESSES && 0 <= i < MAX_PROCESSES - 1
    ensures Slot(h, i + 1) == Slot(head, i) != h
  {
  }

  lemma PushHead(buf: seq<int>, head: int, count: int, x: int)
    requires RingOk(buf, head, count) && count < MAX_PROCESSES
    ensures var h := (head + MAX_PROCESSES - 1) % MAX_PROCESSES;
            Ring(buf[h := x], h, count + 1) == [x] + Ring(buf, head, count)
  {
    var h := (head + MAX_PROCESSES - 1) % MAX_PROCESSES;
    var buf' := buf[h := x];
    var r := Ring(buf', h, count + 1);
    SlotAtHead(h);
    forall i | 0 <= i < count
      ensures r[i + 1] == Ring(buf, head, count)[i]
    {
      SlotBehind(head, h, i);
    }
    assert r == [x] + Ring(buf, head, count);
  }

  lemma PopHead(buf: seq<int>, head: int, count: int)
    requires RingOk(buf, head, count) && count > 0
    ensures Ring(buf, head, count)[0] == buf[head]
    ensures Ring(buf, (head + 1) % MAX_PROCESSES, count - 1) == Ring(buf, head, count)[1..]
  {
    var h := (head + 1) % MAX_PROCESSES;
    forall i | 0 <= i < count - 1
      ensures Slot(h, i) == Slot(head, i + 1)
    {
    }
  }
}
