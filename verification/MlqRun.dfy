/** A whole MLQ run on the arrays of `mlq.c`.

    As `MlfqRun` for MLFQ: every callback finds the room it needs in the three rings, and the run
    is the one that the theorems about `MlqScheduler` are about, with the same return, table,
    timeline and switch count as the engine's. */
module MlqRun {
  import opened Processes
  import opened Engine
  import opened MlqMachine
  import Spec = Mlq
  import Multi = MultiQueue
  import Capacity

  ghost predicate RoomyPick(a: Multi.State) {
    var b := Spec.PickNext(a).0;
    && (a.running != IDLE ==> Capacity.LevelsBelow(a.m, MAX_PROCESSES))
    && (b.running != IDLE ==> Capacity.LevelsBelow(b.m, MAX_PROCESSES))
  }

  /** No level is full when a process arrives at tick `t`, nor while one runs. */
  ghost predicate Roomy(r: Sim<Multi.State>, t: int) {
    && |r.procs| <= MAX_PROCESSES && |r.timeline| == t
        && (forall k :: 0 <= k < |r.procs| ==> 0 <= r.procs[k].queue <= 2)
    && (forall k :: 0 <= k < |r.procs| && r.procs[k].arrival == t ==>
          Capacity.LevelsBelow(Admit(Spec.MlqScheduler(), r.st, r.procs, t, k).m, MAX_PROCESSES))
    && RoomyPick(Admit(Spec.MlqScheduler(), r.st, r.procs, t, |r.procs|))
  }

  lemma {:induction false} EveryTickIsRoomy(P: Table, t: nat)
    requires Loaded(P)
    ensures After(Spec.MlqScheduler(), P, t).Some? && Roomy(After(Spec.MlqScheduler(), P, t).value, t)
  {
    var r := Spec.StateAt(P, t);
    forall k | 0 <= k < |r.procs| && r.procs[k].arrival == t
      ensures Capacity.LevelsBelow(Admit(Spec.MlqScheduler(), r.st, r.procs, t, k).m, MAX_PROCESSES)
    {
      Capacity.MlqRoom(P, t, k);
    }
    Capacity.MlqRoom(P, t, 0);
  }

  /** Step 2: the arrivals, in table order. */
  method AdmitAll(s: MlqState, procs: array<Process>, tick: nat, ghost r: Sim<Multi.State>)
    requires s.Valid() && procs[..] == r.procs && s.View() == r.st && Roomy(r, tick)
    modifies s.bank.queue, s.bank.count
    ensures s.Valid() && s.View() == Admit(Spec.MlqScheduler(), r.st, r.procs, tick, |r.procs|)
  {
    for i := 0 to procs.Length
      invariant s.Valid() && s.View() == Admit(Spec.MlqScheduler(), r.st, r.procs, tick, i)
    {
      if procs[i].arrival == tick {
        assert procs[i] == r.procs[i];
        CountsAre(s);
        s.OnArrival(procs[i], tick);
      }
    }
  }

  /** Step 3: the choice. */
  method Decide(s: MlqState, current: int, tick: nat, ghost a: Multi.State) returns (next: int)
    requires s.Valid() && s.View() == a && RoomyPick(a)
    modifies s, s.bank.queue, s.bank.head, s.bank.count, s.bank.saved
    ensures s.Valid() && s.HasRoom() && (s.View(), next) == Spec.PickNext(a)
  {
    RoomInBank(s);
    next := s.PickNext(current, tick);
    RoomInBank(s);
  }

  lemma CountsAre(s: MlqState)
    requires s.Valid()
    ensures var q := s.View().m.q;
            s.bank.count[0] == |q.l0| && s.bank.count[1] == |q.l1| && s.bank.count[2] == |q.l2|
  {
  }

  lemma RoomInBank(s: MlqState)
    requires s.Valid() && (s.running != IDLE ==> Capacity.LevelsBelow(s.View().m, MAX_PROCESSES))
    ensures s.HasRoom()
  {
    CountsAre(s);
  }

  /** Steps 6 and 7: execution, completion and the end of the tick, unless the choice fails a
      guard. */
  method Perform(s: MlqState, procs: array<Process>, tick: nat, next: int) returns (ok: bool, finished: bool)
    requires s.Valid() && s.HasRoom()
    modifies procs, s, s.bank.queue, s.bank.count
    ensures ok <==> next == IDLE || Runnable(old(procs[..]), next, tick)
    ensures !ok ==> procs[..] == old(procs[..])
    ensures ok ==>
              && s.Valid()
              && procs[..] == Execute(old(procs[..]), next, tick)
              && finished == Finishes(old(procs[..]), next)
              && s.View() == Settle(Spec.MlqScheduler(), old(s.View()), old(procs[..]), next, tick)
  {
    finished := false;
    if next != IDLE {
      var p := FindProcess(procs, next);
      if p < 0 || procs[p].remaining <= 0 || procs[p].arrival > tick {
        return false, false;
      }
      finished := ExecuteAt(procs, p, tick);
      if finished { s.OnComplete(procs[p], tick); }
    }
    s.OnTickEnd(next, tick);
    ok := true;
  }

  /** The scheduler's arrays and the timeline are different arrays. */
  ghost predicate Apart(s: MlqState, out: RunResult) {
    && out.timeline != s.bank.queue && out.timeline != s.bank.head && out.timeline != s.bank.count
    && out.timeline != s.bank.saved
  }

  /** Steps 2 to 5: admit, choose, count the switch, record. */
  method Choose(s: MlqState, procs: array<Process>, current: int, tick: nat, out: RunResult, ghost r: Sim<Multi.State>)
    returns (next: int)
    requires tick < MAX_TICKS && out.timeline.Length == MAX_TICKS && s.Valid() && Apart(s, out)
    requires procs[..] == r.procs && s.View() == r.st && Roomy(r, tick)
    modifies out`contextSwitches, out.timeline, s, s.bank.queue, s.bank.head, s.bank.count, s.bank.saved
    ensures s.Valid() && s.HasRoom()
    ensures (s.View(), next) == Spec.PickNext(Admit(Spec.MlqScheduler(), r.st, r.procs, tick, |r.procs|))
    ensures out.timeline[..tick + 1] == old(out.timeline[..tick]) + [next]
    ensures out.contextSwitches == old(out.contextSwitches) + IsSwitch(current, next)
  {
    AdmitAll(s, procs, tick, r);
    next := Decide(s, current, tick, s.View());
    if next != current && next != IDLE && current != IDLE {
      out.contextSwitches := out.contextSwitches + 1;
    }
    out.timeline[tick] := next;
  }

  /** One tick, in the fixed order of events. */
  method Tick(s: MlqState, procs: array<Process>, current: int, completed: int, tick: nat, out: RunResult,
      ghost r: Sim<Multi.State>)
    returns (ok: bool, completed': int, next: int)
    requires tick < MAX_TICKS && out.timeline.Length == MAX_TICKS && s.Valid() && Apart(s, out)
    requires r == Sim(procs[..], s.View(), current, completed, out.timeline[..tick], out.contextSwitches)
             && Roomy(r, tick)
    modifies procs, out`contextSwitches, out.timeline, s, s.bank.queue, s.bank.head, s.bank.count, s.bank.saved
    ensures !ok ==> Step(Spec.MlqScheduler(), r) == None
    ensures ok ==>
              && s.Valid()
              && Step(Spec.MlqScheduler(), r)
              == Some(Sim(procs[..], s.View(), next, completed', out.timeline[..tick + 1], out.contextSwitches))
  {
    next := Choose(s, procs, current, tick, out, r);
    StepIs(Spec.MlqScheduler(), r, s.View(), next);
    var finished;
    ok, finished := Perform(s, procs, tick, next);
    completed' := if finished then completed + 1 else completed;
  }

  lemma RoomyLoop(P: Table, t: nat, r: Sim<Multi.State>)
    requires Loaded(P) && LoopAt(Spec.MlqScheduler(), P, t, r)
    ensures Roomy(r, t) && |r.procs| == |P|
  {
    EveryTickIsRoomy(P, t);
  }

  /** The engine's loop, from whatever point the run has reached. */
  method Loop(s: MlqState, procs: array<Process>, out: RunResult, ghost table: Table) returns (rc: int)
    requires Loaded(table) && out.timeline.Length == MAX_TICKS
    requires s.Valid() && Apart(s, out)
    requires LoopAt(Spec.MlqScheduler(), table, 0, Sim(procs[..], s.View(), IDLE, 0, [], out.contextSwitches))
    modifies procs, out, out.timeline, s, s.bank.queue, s.bank.head, s.bank.count, s.bank.saved
    ensures rc == 0 || rc == -1
    ensures rc == 0 <==> Run(Spec.MlqScheduler(), table).Some?
    ensures rc == 0 ==>
              && 0 <= out.totalTicks <= MAX_TICKS
              && var r := Run(Spec.MlqScheduler(), table).value;
              && procs[..] == r.procs && out.timeline[..out.totalTicks] == r.timeline
                  && out.contextSwitches == r.switches
  {
    var tick, completed, current := 0, 0, IDLE;
    ghost var r := Sim(procs[..], s.View(), IDLE, 0, out.timeline[..0], out.contextSwitches);
    while completed < procs.Length
      invariant 0 <= tick <= MAX_TICKS && s.Valid()
      invariant r == Sim(procs[..], s.View(), current, completed, out.timeline[..tick], out.contextSwitches)
      invariant LoopAt(Spec.MlqScheduler(), table, tick, r)
      decreases MAX_TICKS - tick
    {
      RoomyLoop(table, tick, r);
      if tick >= MAX_TICKS {
        LoopStuck(Spec.MlqScheduler(), table, tick, r);
        return -1;
      }
      var ok, next;
      ok, completed, next := Tick(s, procs, current, completed, tick, out, r);
      if !ok {
        LoopStuck(Spec.MlqScheduler(), table, tick, r);
        return -1;
      }
      current := next;
      tick := tick + 1;
      ghost var r' := Sim(procs[..], s.View(), current, completed, out.timeline[..tick], out.contextSwitches);
      LoopGoesOn(Spec.MlqScheduler(), table, r, r', tick);
      r := r';
    }
    LoopDone(Spec.MlqScheduler(), table, tick, r);
    out.totalTicks := tick;
    rc := 0;
  }

  /** Runs MLQ over one table, in place: the same results as the engine's for this
      scheduler, from the scheduler's own arrays. */
  method RunMlq(procs: array<Process>, out: RunResult) returns (rc: int)
    requires Loaded(procs[..]) && out.timeline.Length == MAX_TICKS
    modifies procs, out, out.timeline
    ensures rc == 0 || rc == -1
    ensures rc == 0 <==> Run(Spec.MlqScheduler(), old(procs[..])).Some?
    ensures rc == 0 ==>
              && 0 <= out.totalTicks <= MAX_TICKS
              && var r := Run(Spec.MlqScheduler(), old(procs[..])).value;
              && procs[..] == r.procs && out.timeline[..out.totalTicks] == r.timeline
                  && out.contextSwitches == r.switches
  {
    ghost var table := procs[..];
    forall i | 0 <= i < MAX_TICKS { out.timeline[i] := 0; }
    out.totalTicks, out.contextSwitches := 0, 0;
    var s := new MlqState();
    assert procs[..] == table;
    LoopStarts(Spec.MlqScheduler(), table);
    rc := Loop(s, procs, out, table);
  }
}
