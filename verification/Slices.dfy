/** What is left of slices, against the ticks that processes have executed: shared by MLQ and MLFQ.

    A slice is sound by the numbers a scheduler keeps; it is balanced when those numbers add up
    with a count of executed ticks that never looks at them. */
module Slices {
  import opened Processes
  import opened Engine
  import opened MultiQueue

  /** The ticks pid `x` has had since it last joined a queue at the tail or was boosted, after
      one more tick. It counts executed ticks only and never looks at a slice. */
  function Charge(used: int, x: int, boosted: bool, b: State, s': State): int {
    var u := (if boosted then 0 else used) + (if b.running == x then 1 else 0);
    if b.running == x && s'.running != x then 0 else u
  }

  ghost predicate PlaceBalanced(m: Queues, quantum: Levels<int>, used: int -> int, lv: int, p: nat)
    requires p < |m.q.At(lv)|
  {
    used(m.q.At(lv)[p]) == if p == 0 && m.saved.At(lv) > 0 then quantum.At(lv) - m.saved.At(lv) else 0
  }

  ghost predicate QueueBalanced(m: Queues, quantum: Levels<int>, used: int -> int, lv: int) {
    quantum.At(lv) > 0 ==> forall p :: 0 <= p < |m.q.At(lv)| ==> PlaceBalanced(m, quantum, used, lv, p)
  }

  /** Executed ticks and remaining slice add up to the level's quantum, for the running
      process and for a preempted head; everybody else queued has an untouched slice. A level
      of quantum 0 has no slices. */
  ghost predicate Balanced(s: State, quantum: Levels<int>, used: int -> int) {
    && (s.running != IDLE && quantum.At(s.level) > 0 ==> used(s.running) + s.left == quantum.At(s.level))
    && QueueBalanced(s.m, quantum, used, 0) && QueueBalanced(s.m, quantum, used, 1)
        && QueueBalanced(s.m, quantum, used, 2)
  }

  lemma PutBackBalanced(a: State, quantum: Levels<int>, used: int -> int)
    requires a.running != IDLE && SliceOk(a, quantum) && Balanced(a, quantum, used)
    ensures SliceOk(PutBack(a), quantum) && Balanced(PutBack(a), quantum, used)
  {
    var m, lv := PutBack(a).m, a.level;
    forall k | 0 <= k <= 2
      ensures QueueBalanced(m, quantum, used, k)
    {
      assert QueueBalanced(a.m, quantum, used, k);
      forall p | 0 <= p < |m.q.At(k)| && quantum.At(k) > 0
        ensures PlaceBalanced(m, quantum, used, k, p)
      {
        if k == lv {
          if p > 0 { assert PlaceBalanced(a.m, quantum, used, k, p - 1); }
        } else {
          assert PlaceBalanced(a.m, quantum, used, k, p);
        }
      }
    }
  }

  lemma TakeBalanced(a: State, quantum: Levels<int>, used: int -> int)
    requires a.running == IDLE && SliceOk(a, quantum) && Balanced(a, quantum, used)
    ensures Balanced(TakeHighest(a, quantum).0, quantum, used)
  {
    var b, lv := TakeHighest(a, quantum).0, Highest(a.m);
    if lv >= 0 {
      assert QueueBalanced(a.m, quantum, used, lv);
      if quantum.At(lv) > 0 { assert PlaceBalanced(a.m, quantum, used, lv, 0); }
      forall k | 0 <= k <= 2
        ensures QueueBalanced(b.m, quantum, used, k)
      {
        assert QueueBalanced(a.m, quantum, used, k);
        forall p | 0 <= p < |b.m.q.At(k)| && quantum.At(k) > 0
          ensures PlaceBalanced(b.m, quantum, used, k, p)
        {
          assert PlaceBalanced(a.m, quantum, used, k, if k == lv then p + 1 else p);
        }
      }
    }
  }

  /** Whoever joins at a tail with nothing used keeps the balance. */
  lemma PushTailBalanced(s: State, quantum: Levels<int>, used: int -> int, lv: int, x: int)
    requires SliceOk(s, quantum) && Balanced(s, quantum, used) && 0 <= lv <= 2 && used(x) == 0
    ensures Balanced(s.(m := PushTail(s.m, lv, x)), quantum, used)
  {
    var m := PushTail(s.m, lv, x);
    forall k | 0 <= k <= 2
      ensures QueueBalanced(m, quantum, used, k)
    {
      assert QueueBalanced(s.m, quantum, used, k) && SavedOk(s.m, quantum, k);
      forall p | 0 <= p < |m.q.At(k)| && quantum.At(k) > 0
        ensures PlaceBalanced(m, quantum, used, k, p)
      {
        if p < |s.m.q.At(k)| { assert PlaceBalanced(s.m, quantum, used, k, p); }
      }
    }
  }

  /** Counting anew changes nothing where the queued pids count as before. */
  lemma QueuesBalanced(m: Queues, quantum: Levels<int>, used: int -> int, used': int -> int, k: int)
    requires QueueBalanced(m, quantum, used, k) && forall x :: x in m.q.At(k) ==> used'(x) == used(x)
    ensures QueueBalanced(m, quantum, used', k)
  {
    forall p | 0 <= p < |m.q.At(k)| && quantum.At(k) > 0
      ensures PlaceBalanced(m, quantum, used', k, p)
    {
      var x := m.q.At(k)[p];
      assert PlaceBalanced(m, quantum, used, k, p);
      assert x in m.q.At(k) && used'(x) == used(x);
    }
  }

  /** The end of a tick: the process picked in `b` goes on running with one tick less, or gives
      up the CPU, back to the tail of `lv` or finished. */
  lemma SettleBalanced(b: State, s': State, quantum: Levels<int>, lv: int, used: int -> int, used': int -> int)
    requires b.running != IDLE && SliceOk(b, quantum) && Balanced(b, quantum, used) && NotQueued(b, b.running)
    requires s'.running == IDLE || s' == b.(left := if quantum.At(b.level) > 0 then b.left - 1 else b.left)
    requires s'.running == IDLE ==> s'.m == b.m || (0 <= lv <= 2 && s'.m == PushTail(b.m, lv, b.running))
    requires forall x :: used'(x) == Charge(used(x), x, false, b, s')
    ensures Balanced(s', quantum, used')
  {
    var c := State(b.m, IDLE, -1, 0);
    forall k | 0 <= k <= 2
      ensures QueueBalanced(b.m, quantum, used', k)
    {
      QueuesBalanced(b.m, quantum, used, used', k);
    }
    if s'.running == IDLE && s'.m != b.m { PushTailBalanced(c, quantum, used', lv, b.running); }
  }

  lemma IdleBalanced(b: State, quantum: Levels<int>, used: int -> int, used': int -> int)
    requires b.running == IDLE && Balanced(b, quantum, used) && NotQueued(b, IDLE)
    requires forall x :: x != IDLE ==> used'(x) == used(x)
    ensures Balanced(b, quantum, used')
  {
    forall k | 0 <= k <= 2
      ensures QueueBalanced(b.m, quantum, used', k)
    {
      QueuesBalanced(b.m, quantum, used, used', k);
    }
  }

  /** Balance as a tick begins: nothing used yet by those still to arrive. */
  ghost predicate BalancedRun(P: Table, s: State, quantum: Levels<int>, used: int -> int, t: nat) {
    Balanced(s, quantum, used) && forall i :: 0 <= i < |P| && P[i].arrival >= t ==> used(P[i].pid) == 0
  }

  lemma StillUnused(P: Table, t: nat, ps: Table, boosted: bool, b: State, s': State, used: int -> int,
      used': int -> int)
    requires |ps| == |P| && MidRun(ps, t) && (b.running == IDLE || Runnable(ps, b.running, t))
    requires forall i :: 0 <= i < |P| ==> ps[i].pid == P[i].pid && ps[i].arrival == P[i].arrival
    requires forall x :: used'(x) == Charge(used(x), x, boosted, b, s')
    requires forall i :: 0 <= i < |P| && P[i].arrival >= t ==> used(P[i].pid) == 0
    ensures forall i :: 0 <= i < |P| && P[i].arrival >= t + 1 ==> used'(P[i].pid) == 0
  {
    forall i | 0 <= i < |P| && P[i].arrival >= t + 1 ensures used'(P[i].pid) == 0 { IndexOfOwn(ps, i); }
  }

  lemma {:induction false} ArrivingIs(ps: Table, t: int, k: nat, x: int)
    requires k <= |ps| && x in ArrivingPids(ps, t, k)
    ensures exists i :: 0 <= i < |ps| && ps[i].pid == x && ps[i].arrival == t
  {
    if ps[k - 1].arrival != t || ps[k - 1].pid != x { ArrivingIs(ps, t, k - 1, x); }
  }
}
