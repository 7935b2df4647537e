/** The tick engine of `src/engine.c`: one loop for every scheduler.

    As a step function over states, as the bounded loop over it, and as the methods that run
    both in place on arrays. */
module Engine {
  import opened Processes

  /** The struct of callbacks of `src/sched/sched.h`, with the opaque state threaded through. */
  datatype Scheduler<!S> = Scheduler(
    init: Table -> S,
    onArrival: (S, Table, Process, int) -> S,
    pickNext: (S, Table, int, int) -> (S, int),
    onTickEnd: (S, Table, int, int) -> S,
    onComplete: (S, Table, Process, int) -> S)

  /** Everything the engine loop carries from one tick to the next. The tick itself is the
      length of the timeline. */
  datatype Sim<S> = Sim(
    procs: Table,
    st: S,
    current: int,
    completed: int,
    timeline: seq<int>,
    switches: int)

  /** One process after it has executed `tick`. */
  function Ran(p: Process, tick: int): Process {
    p.(startTick := if p.startTick == NOT_STARTED then tick else p.startTick,
       remaining := p.remaining - 1,
       completion := if p.remaining == 1 then tick + 1 else p.completion)
  }

  /** The three guards the engine puts on a scheduler's choice. */
  predicate Runnable(ps: Table, pid: int, tick: int) {
    var k := IndexOf(ps, pid);
    k >= 0 && ps[k].remaining > 0 && ps[k].arrival <= tick
  }

  /** The table after `pid` has executed `tick`. */
  function Execute(ps: Table, pid: int, tick: int): (r: Table)
    ensures |r| == |ps|
  {
    var k := IndexOf(ps, pid);
    if pid == IDLE || k < 0 then ps else ps[k := Ran(ps[k], tick)]
  }

  /** Did `pid`, which has just executed, finish? */
  predicate Finishes(ps: Table, pid: int) {
    var k := IndexOf(ps, pid);
    pid != IDLE && k >= 0 && ps[k].remaining == 1
  }

  function IsSwitch(current: int, next: int): (n: int) {
    if next != current && next != IDLE && current != IDLE then 1 else 0
  }

  /** Steps 1 and 2: the arrivals of `tick` among the first `k`, in table order. */
  function Admit<S>(sc: Scheduler<S>, st: S, ps: Table, tick: int, k: nat): S
    requires k <= |ps|
  {
    if k == 0 then st
    else
      var st' := Admit(sc, st, ps, tick, k - 1);
      if ps[k - 1].arrival == tick then sc.onArrival(st', ps, ps[k - 1], tick) else st'
  }

  /** Step 3, on the state that has admitted this tick's arrivals. */
  function Choice<S>(sc: Scheduler<S>, s: Sim<S>): (S, int) {
    sc.pickNext(Admit(sc, s.st, s.procs, |s.timeline|, |s.procs|), s.procs, s.current, |s.timeline|)
  }

  /** The callbacks that follow execution: completion first, then the end of the tick. */
  function Settle<S>(sc: Scheduler<S>, st: S, ps: Table, next: int, tick: int): S {
    var after := Execute(ps, next, tick);
    var k := IndexOf(ps, next);
    var st' := if Finishes(ps, next) then sc.onComplete(st, after, after[k], tick) else st;
    sc.onTickEnd(st', after, next, tick)
  }

  /** One tick. `None` is the engine's error return for a choice that fails a guard. */
  function Step<S>(sc: Scheduler<S>, s: Sim<S>): Option<Sim<S>> {
    var tick := |s.timeline|;
    var (st, next) := Choice(sc, s);
    if next != IDLE && !Runnable(s.procs, next, tick) then None
    else
      Some(Sim(
             Execute(s.procs, next, tick),
             Settle(sc, st, s.procs, next, tick),
             next,
             s.completed + (if Finishes(s.procs, next) then 1 else 0),
             s.timeline + [next],
             s.switches + IsSwitch(s.current, next)))
  }

  function Start<S>(sc: Scheduler<S>, ps: Table): Sim<S> {
    Sim(ps, sc.init(ps), IDLE, 0, [], 0)
  }

  /** The engine's state after `t` ticks, were it never to stop. */
  function After<S>(sc: Scheduler<S>, ps: Table, t: nat): (r: Option<Sim<S>>)
    ensures r.Some? ==> |r.value.timeline| == t && |r.value.procs| == |ps|
  {
    if t == 0 then Some(Start(sc, ps))
    else
      var r := After(sc, ps, t - 1);
      if r.None? then None else Step(sc, r.value)
  }

  predicate Running<S>(sc: Scheduler<S>, ps: Table, t: nat) {
    After(sc, ps, t).Some? && After(sc, ps, t).value.completed < |ps|
  }

  /** The engine stops after exactly `t` ticks with every process finished. */
  ghost predicate StopsAt<S>(sc: Scheduler<S>, ps: Table, t: nat) {
    && t <= MAX_TICKS
    && After(sc, ps, t).Some? && After(sc, ps, t).value.completed >= |ps|
    && forall u :: 0 <= u < t ==> Running(sc, ps, u)
  }

  /** The loop from a given state: the final state of a run that returns 0, or `None` for -1. */
  function RunFrom<S>(sc: Scheduler<S>, s: Sim<S>): (r: Option<Sim<S>>)
    ensures r.Some? ==> |r.value.procs| == |s.procs| <= r.value.completed
    decreases MAX_TICKS - |s.timeline|
  {
    if s.completed >= |s.procs| then Some(s)
    else if |s.timeline| >= MAX_TICKS then None
    else
      var r := Step(sc, s);
      if r.None? then None else RunFrom(sc, r.value)
  }

  function Run<S>(sc: Scheduler<S>, ps: Table): (r: Option<Sim<S>>)
    ensures r.Some? ==> |r.value.procs| == |ps|
  {
    RunFrom(sc, Start(sc, ps))
  }

  /** The bounded loop succeeds exactly when the unbounded step function finishes every
      process within the cap without ever failing a guard, and then agrees with it. */
  lemma RunIffStops<S>(sc: Scheduler<S>, ps: Table)
    ensures Run(sc, ps).Some? <==> exists t: nat :: StopsAt(sc, ps, t)
    ensures Run(sc, ps).Some? ==>
              var s := Run(sc, ps).value; StopsAt(sc, ps, |s.timeline|) && After(sc, ps, |s.timeline|) == Some(s)
    ensures forall t: nat :: StopsAt(sc, ps, t) ==> Run(sc, ps) == After(sc, ps, t)
  {
    LoopRuns(sc, ps, 0, Start(sc, ps));
    forall t: nat | StopsAt(sc, ps, t)
      ensures Run(sc, ps) == After(sc, ps, t)
    {
      LoopStops(sc, ps, t, 0, Start(sc, ps));
    }
  }

  lemma {:induction false} LoopRuns<S>(sc: Scheduler<S>, ps: Table, t: nat, s: Sim<S>)
    requires t <= MAX_TICKS && After(sc, ps, t) == Some(s)
    requires forall u :: 0 <= u < t ==> Running(sc, ps, u)
    ensures var r := RunFrom(sc, s);
            r.Some? ==> StopsAt(sc, ps, |r.value.timeline|) && After(sc, ps, |r.value.timeline|) == r
    decreases MAX_TICKS - t
  {
    if s.completed < |ps| && t < MAX_TICKS && Step(sc, s).Some? {
      assert Running(sc, ps, t);
      assert After(sc, ps, t + 1) == Step(sc, s);
      LoopRuns(sc, ps, t + 1, Step(sc, s).value);
    }
  }

  lemma StopsLater<S>(sc: Scheduler<S>, ps: Table, t: nat, u: nat, s: Sim<S>)
    requires StopsAt(sc, ps, t) && u < t && After(sc, ps, u) == Some(s)
    ensures s.completed < |ps| && After(sc, ps, u + 1).Some? && After(sc, ps, u + 1) == Step(sc, s)
  {
    assert Running(sc, ps, u);
    AfterPrefix(sc, ps, t, u + 1);
  }

  lemma {:induction false} LoopStops<S>(sc: Scheduler<S>, ps: Table, t: nat, u: nat, s: Sim<S>)
    requires StopsAt(sc, ps, t) && u <= t && After(sc, ps, u) == Some(s)
    ensures RunFrom(sc, s) == After(sc, ps, t)
    decreases t - u
  {
    if u < t {
      StopsLater(sc, ps, t, u, s);
      LoopStops(sc, ps, t, u + 1, Step(sc, s).value);
    }
  }

  lemma Stepwise<S>(sc: Scheduler<S>, ps: Table, t: nat, s: Sim<S>, s': Sim<S>)
    requires After(sc, ps, t) == Some(s) && After(sc, ps, t + 1) == Some(s')
    ensures Step(sc, s) == Some(s')
  {
  }

  /** A run that exists after `t` ticks existed, with a prefix of the timeline, before. */
  lemma {:induction false} AfterPrefix<S>(sc: Scheduler<S>, ps: Table, t: nat, u: nat)
    requires u <= t && After(sc, ps, t).Some?
    ensures After(sc, ps, u).Some?
    ensures After(sc, ps, u).value.timeline == After(sc, ps, t).value.timeline[..u]
  {
    if u < t {
      AfterPrefix(sc, ps, t - 1, u);
    }
  }

  /** `r` is the run of `ps` as tick `t` begins, and the engine's loop is at that point. */
  ghost predicate LoopAt<S>(sc: Scheduler<S>, ps: Table, t: nat, r: Sim<S>) {
    After(sc, ps, t) == Some(r) && Run(sc, ps) == RunFrom(sc, r)
  }

  lemma LoopStarts<S>(sc: Scheduler<S>, ps: Table)
    ensures LoopAt(sc, ps, 0, Start(sc, ps))
  {
  }

  lemma LoopGoesOn<S>(sc: Scheduler<S>, ps: Table, r: Sim<S>, r': Sim<S>, next: nat)
    requires 0 < next <= MAX_TICKS && |r.timeline| == next - 1 && LoopAt(sc, ps, next - 1, r)
    requires r.completed < |r.procs| && Step(sc, r) == Some(r')
    ensures LoopAt(sc, ps, next, r')
  {
  }

  lemma LoopDone<S>(sc: Scheduler<S>, ps: Table, t: nat, r: Sim<S>)
    requires LoopAt(sc, ps, t, r) && r.completed >= |r.procs|
    ensures Run(sc, ps) == Some(r)
  {
  }

  lemma LoopStuck<S>(sc: Scheduler<S>, ps: Table, t: nat, r: Sim<S>)
    requires LoopAt(sc, ps, t, r) && |r.timeline| == t && r.completed < |r.procs|
    requires t >= MAX_TICKS || Step(sc, r) == None
    ensures Run(sc, ps) == None
  {
  }

  /** A step of a run, from the choice made in it. */
  lemma StepIs<S>(sc: Scheduler<S>, r: Sim<S>, st: S, next: int)
    requires (st, next) == Choice(sc, r)
    ensures Step(sc, r)
         == if next != IDLE && !Runnable(r.procs, next, |r.timeline|) then None
            else
              Some(Sim(
                     Execute(r.procs, next, |r.timeline|), Settle(sc, st, r.procs, next, |r.timeline|), next,
                     r.completed + (if Finishes(r.procs, next) then 1 else 0), r.timeline + [next],
                     r.switches + IsSwitch(r.current, next)))
  {
  }

  /** What a run writes besides the process table. */
  class RunResult {
    const timeline: array<int>
    var totalTicks: int
    var contextSwitches: int

    constructor ()
      ensures timeline.Length == MAX_TICKS && fresh(timeline)
    {
      timeline := new int[MAX_TICKS];
      totalTicks := 0;
      contextSwitches := 0;
    }
  }

  /** Step 6 on the slot found for the chosen pid. */
  method ExecuteAt(procs: array<Process>, p: nat, tick: int) returns (finished: bool)
    requires p < procs.Length
    modifies procs
    ensures procs[..] == old(procs[..])[p := Ran(old(procs[p]), tick)]
    ensures finished <==> old(procs[p]).remaining == 1
  {
    if procs[p].startTick == NOT_STARTED {
      procs[p] := procs[p].(startTick := tick);
    }
    procs[p] := procs[p].(remaining := procs[p].remaining - 1);
    finished := procs[p].remaining == 0;
    if finished {
      procs[p] := procs[p].(completion := tick + 1);
    }
  }

  method FindProcess(procs: array<Process>, pid: int) returns (k: int)
    ensures k == IndexOf(procs[..], pid)
  {
    k := 0;
    while k < procs.Length
      invariant 0 <= k <= procs.Length
      invariant forall j :: 0 <= j < k ==> procs[j].pid != pid
    {
      if procs[k].pid == pid {
        assert procs[..][k].pid == pid;
        return;
      }
      k := k + 1;
    }
    k := -1;
  }

  /** The body of the engine's loop: one tick, in the fixed order of events. */
  method RunTick<S>(sched: Scheduler<S>, st: S, current: int, completed: int, tick: nat,
                    procs: array<Process>, out: RunResult)
    returns (ok: bool, st': S, completed': int, next: int)
    requires tick < MAX_TICKS && out.timeline.Length == MAX_TICKS
    modifies procs, out`contextSwitches, out.timeline
    ensures var s := old(Sim(procs[..], st, current, completed, out.timeline[..tick], out.contextSwitches));
            if ok then
              Step(sched, s) == Some(Sim(procs[..], st', next, completed', out.timeline[..tick + 1],
                  out.contextSwitches))
            else
              Step(sched, s) == None && procs[..] == old(procs[..])
  {
    ghost var s := Sim(procs[..], st, current, completed, out.timeline[..tick], out.contextSwitches);
    st', completed', ok := st, completed, true;
    for i := 0 to procs.Length
      invariant st' == Admit(sched, st, s.procs, tick, i)
    {
      if procs[i].arrival == tick {
        st' := sched.onArrival(st', procs[..], procs[i], tick);
      }
    }

    var choice := sched.pickNext(st', procs[..], current, tick);
    st', next := choice.0, choice.1;
    if next != current && next != IDLE && current != IDLE {
      out.contextSwitches := out.contextSwitches + 1;
    }
    out.timeline[tick] := next;
    assert out.timeline[..tick + 1] == s.timeline + [next];
    assert procs[..] == s.procs && (st', next) == Choice(sched, s);

    if next != IDLE {
      var p := FindProcess(procs, next);
      if p < 0 || procs[p].remaining <= 0 || procs[p].arrival > tick {
        return false, st', completed', next;
      }
      var finished := ExecuteAt(procs, p, tick);
      if finished {
        completed' := completed' + 1;
        st' := sched.onComplete(st', procs[..], procs[p], tick);
      }
    }
    st' := sched.onTickEnd(st', procs[..], next, tick);
  }

  /** The tick at which a failing run gives up: at the cap, or at a choice that fails a guard. */
  ghost predicate StuckAt<S>(sc: Scheduler<S>, ps: Table, t: nat) {
    Running(sc, ps, t) && (t == MAX_TICKS || Step(sc, After(sc, ps, t).value).None?)
  }

  /** Runs one scheduler over one table, in place. Returns 0 exactly when `Run` does, and
      then leaves its table, timeline and counters behind; returns -1 with the table of the
      last tick that passed the guards. */
  method EngineRun<S>(sched: Scheduler<S>, procs: array<Process>, out: RunResult) returns (rc: int)
    requires out.timeline.Length == MAX_TICKS
    modifies procs, out, out.timeline
    ensures rc == 0 || rc == -1
    ensures rc == 0 <==> Run(sched, old(procs[..])).Some?
    ensures rc == 0 ==>
              var s := Run(sched, old(procs[..])).value;
              && procs[..] == s.procs
              && 0 <= out.totalTicks <= MAX_TICKS
              && out.timeline[..out.totalTicks] == s.timeline
              && out.contextSwitches == s.switches
    ensures rc == -1 ==>
              exists t: nat :: StuckAt(sched, old(procs[..]), t)
                  && procs[..] == After(sched, old(procs[..]), t).value.procs
  {
    ghost var table := procs[..];
    var n := procs.Length;
    var tick, completed, current := 0, 0, IDLE;
    forall i | 0 <= i < MAX_TICKS { out.timeline[i] := 0; }
    out.totalTicks, out.contextSwitches := 0, 0;
    var state := sched.init(procs[..]);
    assert procs[..] == table && out.timeline[..0] == [];

    while completed < n
      invariant 0 <= tick <= MAX_TICKS
      invariant After(sched, table, tick)
             == Some(Sim(procs[..], state, current, completed, out.timeline[..tick], out.contextSwitches))
      invariant Run(sched, table) == RunFrom(sched, After(sched, table, tick).value)
      decreases MAX_TICKS - tick
    {
      if tick >= MAX_TICKS {
        assert StuckAt(sched, table, tick);
        return -1;
      }
      ghost var s := After(sched, table, tick).value;
      var next, ok;
      ok, state, completed, next := RunTick(sched, state, current, completed, tick, procs, out);
      if !ok {
        assert StuckAt(sched, table, tick);
        return -1;
      }
      assert After(sched, table, tick + 1) == Step(sched, s);
      current := next;
      tick := tick + 1;
    }
    out.totalTicks := tick;
    rc := 0;
  }
}
