/** A whole Round Robin run on the ring buffer of `rr.c`.

    As `MlfqRun` for MLFQ: every callback finds the room it needs in the ring, and the run is the
    one that the theorems about `Rr` are about, with the same return, table, timeline and switch
    count as the engine's. */
module RrRun {
  import opened Processes
  import opened Engine
  import opened RoundRobinMachine
  import Spec = RoundRobin
  import Capacity

  /** The ring is not full when a process arrives at tick `t`, nor while one runs. */
  ghost predicate Roomy(q: int, r: Sim<Spec.State>, t: int) {
    && |r.timeline| == t
    && (forall k :: 0 <= k < |r.procs| && r.procs[k].arrival == t ==>
          |Admit(Spec.Rr(q), r.st, r.procs, t, k).queue| < MAX_PROCESSES)
    && var b := Spec.PickNext(Admit(Spec.Rr(q), r.st, r.procs, t, |r.procs|)).0;
       b.running != IDLE ==> |b.queue| < MAX_PROCESSES
  }

  lemma {:induction false} EveryTickIsRoomy(q: int, P: Table, t: nat)
    requires Loaded(P)
    ensures After(Spec.Rr(q), P, t).Some? && Roomy(q, After(Spec.Rr(q), P, t).value, t)
  {
    Capacity.RrRoom(q, P, t, 0);
    var r := After(Spec.Rr(q), P, t).value;
    forall k | 0 <= k < |r.procs| && r.procs[k].arrival == t
      ensures |Admit(Spec.Rr(q), r.st, r.procs, t, k).queue| < MAX_PROCESSES
    {
      Capacity.RrRoom(q, P, t, k);
    }
  }

  lemma CountIs(s: RrState)
    requires s.Valid()
    ensures s.count == |s.View().queue| && s.running == s.View().running
  {
  }

  lemma AdmitNext(q: int, st: Spec.State, ps: Table, tick: int, k: nat)
    requires k < |ps|
    ensures Admit(Spec.Rr(q), st, ps, tick, k + 1)
         == var a := Admit(Spec.Rr(q), st, ps, tick, k); if ps[k].arrival == tick then Spec.Push(a, ps[k].pid) else a
  {
  }

  /** Step 2: the arrivals, in table order. */
  method AdmitAll(q: int, s: RrState, procs: array<Process>, tick: nat, ghost r: Sim<Spec.State>)
    requires s.Valid() && procs[..] == r.procs && s.View() == r.st && Roomy(q, r, tick)
    modifies s, s.queue
    ensures s.Valid() && s.View() == Admit(Spec.Rr(q), r.st, r.procs, tick, |r.procs|)
  {
    for i := 0 to procs.Length
      invariant s.Valid() && s.View() == Admit(Spec.Rr(q), r.st, r.procs, tick, i)
    {
      AdmitNext(q, r.st, r.procs, tick, i);
      if procs[i].arrival == tick {
        assert procs[i] == r.procs[i];
        CountIs(s);
        s.OnArrival(procs[i], tick);
      }
    }
  }

  /** Steps 6 and 7: execution, completion and the end of the tick, unless the choice fails a
      guard. */
  method Perform(q: int, s: RrState, procs: array<Process>, tick: nat, next: int) returns (ok: bool, finished: bool)
    requires s.Valid() && (s.running != IDLE ==> s.count < MAX_PROCESSES)
    modifies procs, s, s.queue
    ensures ok <==> next == IDLE || Runnable(old(procs[..]), next, tick)
    ensures !ok ==> procs[..] == old(procs[..])
    ensures ok ==>
              && s.Valid()
              && procs[..] == Execute(old(procs[..]), next, tick)
              && finished == Finishes(old(procs[..]), next)
              && s.View() == Settle(Spec.Rr(q), old(s.View()), old(procs[..]), next, tick)
  {
    finished := false;
    if next != IDLE {
      var p := FindProcess(procs, next);
      if p < 0 || procs[p].remaining <= 0 || procs[p].arrival > tick {
        return false, false;
      }
      finished := ExecuteAt(procs, p, tick);
      if finished { s.OnComplete(procs[p], tick); }
    }
    s.OnTickEnd(next, tick);
    ok := true;
  }

  /** Steps 2 to 5: admit, choose, count the switch, record. */
  method Choose(q: int, s: RrState, procs: array<Process>, current: int, tick: nat, out: RunResult,
      ghost r: Sim<Spec.State>)
    returns (next: int)
    requires tick < MAX_TICKS && out.timeline.Length == MAX_TICKS && s.Valid() && out.timeline != s.queue
    requires procs[..] == r.procs && s.View() == r.st && Roomy(q, r, tick)
    modifies out`contextSwitches, out.timeline, s, s.queue
    ensures s.Valid() && (s.running != IDLE ==> s.count < MAX_PROCESSES)
    ensures (s.View(), next) == Spec.PickNext(Admit(Spec.Rr(q), r.st, r.procs, tick, |r.procs|))
    ensures out.timeline[..tick + 1] == old(out.timeline[..tick]) + [next]
    ensures out.contextSwitches == old(out.contextSwitches) + IsSwitch(current, next)
  {
    AdmitAll(q, s, procs, tick, r);
    next := s.PickNext(current, tick);
    CountIs(s);
    if next != current && next != IDLE && current != IDLE {
      out.contextSwitches := out.contextSwitches + 1;
    }
    out.timeline[tick] := next;
  }

  lemma TickIs(q: int, r: Sim<Spec.State>, st: Spec.State, next: int, ps: Table, st': Spec.State)
    requires (st, next) == Spec.PickNext(Admit(Spec.Rr(q), r.st, r.procs, |r.timeline|, |r.procs|))
    ensures next != IDLE && !Runnable(r.procs, next, |r.timeline|) ==> Step(Spec.Rr(q), r) == None
    ensures (next == IDLE || Runnable(r.procs, next, |r.timeline|))
            && ps == Execute(r.procs, next, |r.timeline|)
                && st' == Settle(Spec.Rr(q), st, r.procs, next, |r.timeline|) ==>
              Step(Spec.Rr(q), r)
              == Some(Sim(
                        ps, st', next, r.completed + (if Finishes(r.procs, next) then 1 else 0), r.timeline + [next],
                        r.switches + IsSwitch(r.current, next)))
  {
    StepIs(Spec.Rr(q), r, st, next);
  }

  /** One tick, in the fixed order of events. */
  method Tick(q: int, s: RrState, procs: array<Process>, current: int, completed: int, tick: nat, out: RunResult,
              ghost r: Sim<Spec.State>)
    returns (ok: bool, completed': int, next: int)
    requires tick < MAX_TICKS && out.timeline.Length == MAX_TICKS && s.Valid() && out.timeline != s.queue
    requires r == Sim(procs[..], s.View(), current, completed, out.timeline[..tick], out.contextSwitches)
             && Roomy(q, r, tick)
    modifies procs, out`contextSwitches, out.timeline, s, s.queue
    ensures !ok ==> Step(Spec.Rr(q), r) == None
    ensures ok ==>
              && s.Valid()
              && Step(Spec.Rr(q), r)
              == Some(Sim(procs[..], s.View(), next, completed', out.timeline[..tick + 1], out.contextSwitches))
  {
    next := Choose(q, s, procs, current, tick, out, r);
    ghost var st := s.View();
    var finished;
    ok, finished := Perform(q, s, procs, tick, next);
    completed' := if finished then completed + 1 else completed;
    if ok { TickIs(q, r, st, next, procs[..], s.View()); } else { TickIs(q, r, st, next, r.procs, st); }
  }

  lemma RoomyLoop(q: int, P: Table, t: nat, r: Sim<Spec.State>)
    requires Loaded(P) && LoopAt(Spec.Rr(q), P, t, r)
    ensures Roomy(q, r, t) && |r.procs| == |P|
  {
    EveryTickIsRoomy(q, P, t);
  }

  /** The engine's loop. */
  method Loop(q: int, s: RrState, procs: array<Process>, out: RunResult, ghost table: Table) returns (rc: int)
    requires Loaded(table) && out.timeline.Length == MAX_TICKS && s.Valid() && out.timeline != s.queue
    requires LoopAt(Spec.Rr(q), table, 0, Sim(procs[..], s.View(), IDLE, 0, [], out.contextSwitches))
    modifies procs, out, out.timeline, s, s.queue
    ensures rc == 0 || rc == -1
    ensures rc == 0 <==> Run(Spec.Rr(q), table).Some?
    ensures rc == 0 ==>
              && 0 <= out.totalTicks <= MAX_TICKS
              && var r := Run(Spec.Rr(q), table).value;
              && procs[..] == r.procs && out.timeline[..out.totalTicks] == r.timeline
                  && out.contextSwitches == r.switches
  {
    var tick, completed, current := 0, 0, IDLE;
    ghost var r := Sim(procs[..], s.View(), IDLE, 0, out.timeline[..0], out.contextSwitches);
    while completed < procs.Length
      invariant 0 <= tick <= MAX_TICKS && s.Valid()
      invariant r == Sim(procs[..], s.View(), current, completed, out.timeline[..tick], out.contextSwitches)
      invariant LoopAt(Spec.Rr(q), table, tick, r)
      decreases MAX_TICKS - tick
    {
      RoomyLoop(q, table, tick, r);
      if tick >= MAX_TICKS {
        LoopStuck(Spec.Rr(q), table, tick, r);
        return -1;
      }
      var ok, next;
      ok, completed, next := Tick(q, s, procs, current, completed, tick, out, r);
      if !ok {
        LoopStuck(Spec.Rr(q), table, tick, r);
        return -1;
      }
      current := next;
      tick := tick + 1;
      ghost var r' := Sim(procs[..], s.View(), current, completed, out.timeline[..tick], out.contextSwitches);
      LoopGoesOn(Spec.Rr(q), table, r, r', tick);
      r := r';
    }
    LoopDone(Spec.Rr(q), table, tick, r);
    out.totalTicks := tick;
    rc := 0;
  }

  /** Runs Round Robin with the configured quantum over one table, in place: the same results
      as the engine's for this scheduler, from the scheduler's own ring. */
  method RunRr(q: int, procs: array<Process>, out: RunResult) returns (rc: int)
    requires Loaded(procs[..]) && out.timeline.Length == MAX_TICKS
    modifies procs, out, out.timeline
    ensures rc == 0 || rc == -1
    ensures rc == 0 <==> Run(Spec.Rr(q), old(procs[..])).Some?
    ensures rc == 0 ==>
              && 0 <= out.totalTicks <= MAX_TICKS
              && var r := Run(Spec.Rr(q), old(procs[..])).value;
              && procs[..] == r.procs && out.timeline[..out.totalTicks] == r.timeline
                  && out.contextSwitches == r.switches
  {
    ghost var table := procs[..];
    forall i | 0 <= i < MAX_TICKS { out.timeline[i] := 0; }
    out.totalTicks, out.contextSwitches := 0, 0;
    var s := new RrState(q);
    assert procs[..] == table;
    LoopStarts(Spec.Rr(q), table);
    rc := Loop(q, s, procs, out, table);
  }
}
