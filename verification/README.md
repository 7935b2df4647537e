# A verified model of the CPU scheduling simulator

The simulator advances a process table one tick at a time under one of nine scheduling
policies: FCFS, SJF, SRTF, Round Robin, non-preemptive and preemptive priority, a multi-level
queue (MLQ), a multi-level feedback queue (MLFQ) and a simplified Completely Fair Scheduler
(CFS). This project models the tick engine, the nine schedulers and the metrics, and proves what
every run of them keeps and how runs of different policies over the same table relate.

## How it is laid out

- **Runs.** `Processes` is the table; `Engine` is the loop of `src/engine.c`, both as the method
  `EngineRun` over arrays and as the function `Run` that the method is proved to compute. A
  scheduler is a record of the five callbacks of `src/sched/sched.h`, with its opaque state
  threaded through them, so a theorem over all values of that record is a theorem about any
  scheduler whatever.
- **Timelines.** Everything the engine writes is a function of which pid ran at which tick.
  `Timelines` proves that, and that the runs the engine accepts are exactly the complete legal
  timelines: `AcceptedRun` one way, `EveryTimelineIsAccepted` the other. `LittlesLaw` and
  `WorkConservation` count on timelines.
- **Policies.** `Selection` (SJF, SRTF, both priority policies), `Fcfs`, `RoundRobin`,
  `MultiQueue`, `Mlq`, `Mlfq` and `Cfs` are the callbacks as functions.
- **Arrays.** `FcfsMachine`, `RoundRobinMachine`, `QueueBanks`, `MlqMachine`, `MlfqMachine`,
  `ScanMachines` and `CfsMachine` are the same callbacks as the source runs them: ring buffers
  and fields updated in place, scans as loops, each method proved to compute its function.
  `Capacity` proves that no fixed array is ever too small in a run, `PidIndexes` says when the
  pid-indexed ones are big enough, and `RrRun`, `MlqRun` and `MlfqRun` carry out whole runs on the
  arrays.
- **Disciplines.** `Disciplines` says what each policy is meant to serve, of the table and the
  timeline alone: a ranking of the processes that may run, whose first gets the tick. It names no
  scheduler, and a ranking admits one timeline only. `ScanDisciplines`, `FcfsDiscipline`,
  `RrDiscipline`, `MlqDiscipline`, `MlfqDiscipline` (the last three by way of `TurnLines`) and
  `CfsDiscipline` prove that every tick of every run goes where the ranking says, and
  `Registry.PolicyIsItsRanking` that the run of each of the nine is exactly the timeline prescribed.
- **Theorems.** `SrtfOptimality`, `FcfsWorstCase`, `MlfqStarvation`, `MlfqStarvationBound`,
  `MlfqStarvationLimit`, `Slices`, `MlqSlices`, `MlfqSlices`, `MlfqBoostOrder`, `NonInterference`,
  `CfsFairness`, `CfsWitnesses`, `RrWaiting`, `Reductions`, `SameArrival`, `ContextSwitches`,
  `Registry` and `MetricsReport`.

A table is assumed to be as the loader leaves it (`Processes.Fresh`): sorted by arrival and then
pid, pids unique and at least 1, all fields in bounds, nothing run yet. The theorems put no bound
on its size unless they say so; `Loaded` adds the loader's limit of 64. What is said of MLFQ and CFS
runs is said of tables whose pids are at most 64 as well (`Processes.Indexable`).

## Where the code and its documentation differ

The model follows the code.

- *Boost and admission.* Section 8 of the written specification in `docs/` puts the MLFQ boost
  before a tick's admissions; the code boosts inside `pick_next`, after them
  (`src/sched/mlfq.c:169-171`). `Mlfq.BoostAndAdmissionCommute` proves that the state is the same
  either way.
- *Boost order.* Section 6 of the same document orders the boosted processes by arrival and pid;
  the code puts the running one first (`src/sched/mlfq.c:118-126`). `MlfqBoostOrder.RunBoostOrderIff`
  says exactly when the two agree in a run, and `MlfqBoostOrder.BoostReorders` gives runs in which
  they do not: a long process from tick 0, and a second that arrives on tick 49.
- *CFS placement.* The comment at `src/sched/cfs.c:98-101` says that a late arrival does not start
  at zero. Two processes that arrive on the same tick do: each sees the other's initial 0
  (`src/sched/cfs.c:102-114`). `CfsFairness.PlacedAsDocumentedIff` says exactly when an arrival is
  placed as documented, and `CfsFairness.StaysFairIff` exactly when virtual runtimes stay together.
- *Nice 0 to 3.* Section 1 of `docs/CFS_NOTES.md` says that CPU is divided in proportion to weight,
  and that one nice level shifts about 10% of it. The increments of nice 0 to 3 are all 1
  (`src/sched/cfs.c:33-37`, `src/sched/cfs.c:178`), so the code does not tell these values apart:
  `CfsDiscipline.NiceKinds` proves that exchanging them changes no tick of any run, and
  `CfsDiscipline.SharesInNumbers` gives the shares that there are.
- *Negative nice.* `README.md:87` says that a negative-nice process never yields the CPU. It does,
  to processes that arrive together, when it was itself placed above 0.
  `CfsFairness.NegativeNiceKeepsCpuIff` is the exact condition, and
  `CfsWitnesses.NegativeNiceLosesCpu` gives runs in which it is displaced: one process at nice 5 from
  tick 0, one of negative nice from tick 1, two more on tick 3.
- *Invariant 9.* `README.md:97` says that nine invariants are asserted after every run;
  `src/metrics.c:63-149` asserts eight. `MlfqSlices.LevelRule` and `MlfqSlices.BoostRule` prove
  the ninth.
- *The boost's reach.* The boost bounds starvation for the first 25 processes of a table, of any
  size, and for no others. `MlfqStarvationBound.NoStarvation` is the bound, and
  `MlfqStarvationLimit.BoundFailsBeyond25` shows that it fails for every later slot of a table of
  every size the loader accepts.
- *Pid-indexed arrays.* MLFQ and CFS index arrays of 65 entries by pid
  (`src/sched/mlfq.c:44`, `src/sched/cfs.c:41`), while the loader puts no upper bound on a pid
  (`src/process.c:44`). `PidIndexes.MlfqFitsIff` and `PidIndexes.CfsFitsIff` prove that a run stays
  within the arrays exactly when every pid that arrives before tick 8192 is at most 64, and for a
  run that the engine accepts exactly when every pid is. `PidIndexes.Pid65Overruns` is an input
  that the loader takes and that overruns both: pid 1 from tick 0 with burst 2, pid 65 from tick 1
  with burst 1. What the code does then is undefined, so everything said here about MLFQ and CFS
  requires pids of at most 64.
- *A return of -1.* The comment at `src/engine.h:22-25` says that -1 means a scheduler bug rather
  than a legitimate workload. Under each of the nine policies it means exactly that the table's
  makespan is above 8192 (`Registry.EveryPolicyIsShaped`); a single process of burst 8193 is an
  input (`Registry.TooLongForAll`).

## Model

| member | source | states |
|---|---|---|
| `Engine.EngineRun` | src/engine.c:6-104 | for every scheduler, the in-place loop returns 0 exactly when the step-by-step run finishes within 8192 ticks without failing a guard, and then leaves that run's table, timeline and switch count; a return of -1 is at the cap or at a choice that fails a guard, with the table of the last good tick |
| `Engine.RunTick` | src/engine.c:30-99 | one tick in the fixed order of events is one step of the run, including the switch count, the recorded pid and the order of completion before end of tick; a choice that is unknown, finished or not arrived fails and leaves the table as it was |
| `Engine.ExecuteAt` | src/engine.c:80-88 | executing sets the start once, takes one from what remains, and sets the completion to the next tick exactly on the last |
| `Engine.FindProcess` | src/engine.c:53-58 | the lookup loop finds the first slot with the pid, or none |
| `Engine.RunIffStops` | src/engine.c:15-23 | the bounded loop succeeds exactly when the unbounded step function reaches a finished state within the cap, and returns that state |
| `Engine.AfterPrefix` | src/engine.c:46-47 | a run's timeline is only ever extended |
| `Timelines.Ledger` | src/engine.c:30-96 | after any number of ticks under any scheduler the timeline is legal, and the table, completed count, switch count and current pid are functions of it |
| `Timelines.Books` | src/engine.c:80-88 | on any legal timeline, for each process: remaining is burst minus the ticks it holds; start is its first tick and not before arrival; completion is one past its last and at least start plus burst |
| `Timelines.BusyIsExecuted` | src/metrics.c:73-78 | busy ticks are the executed ticks summed over processes, at every tick |
| `Timelines.AcceptedRun` | src/engine.c:15-103 | whatever scheduler drove it, a run that returns 0 is a complete legal timeline ending when the last process completes, its table and switches are read off it, and its busy ticks are the sum of the bursts |
| `Timelines.EveryTimelineIsAccepted` | src/engine.c:38-78 | conversely every complete legal timeline within the cap is accepted from some scheduler, so statements over all accepted runs are over all schedules |
| `Timelines.CompletesBy` | src/engine.c:86-90 | a process with nothing left as tick t begins completes by t in the accepted run |
| `Timelines.CompletesAfter` | src/engine.c:86-90 | a process with something left as tick t begins completes after t |
| `LittlesLaw.Law` | src/metrics.c:25-32 | in every accepted run the turnarounds sum to the area under the count of arrived unfinished processes, and the waiting times to the area under the count of those not running |
| `LittlesLaw.AreaLaw` | src/metrics.c:25-32 | the same on any finished legal timeline; waiting is the area less the sum of bursts |
| `LittlesLaw.StayIsSpan` | src/engine.c:84-90 | the ticks a process spends arrived and unfinished are the span from its arrival to its completion |
| `LittlesLaw.ResponseIsFirstEntry` | src/metrics.c:28-32 | in every accepted run of any scheduler a process's response time is the number of ticks from its arrival to its first entry in the timeline |
| `WorkConservation.Outcome` | src/engine.c:15-103 | a work-conserving policy never fails a guard; it succeeds exactly when the table's makespan is within the cap, takes exactly that long, and is idle exactly on the ticks when all arrived work is done |
| `WorkConservation.NoRunIsShorter` | src/engine.c:15-103 | no accepted run of any scheduler is shorter than the makespan |
| `WorkConservation.NobodyIsBusier` | src/engine.c:46-91 | no legal timeline has more busy ticks by any tick than a work-conserving one |
| `WorkConservation.ConservingBusy` | docs/ANALYSIS.md:11-11 | busy ticks of a work-conserving timeline depend on arrivals and bursts only |
| `WorkConservation.FinishAtMost` | src/engine.h:7-11 | the makespan is at most the last arrival plus the sum of bursts |
| `WorkConservation.BusyUntilMakespan` | src/engine.h:7-11 | the work runs out at the makespan and not before |
| `WorkConservation.ByInvariant` | src/engine.c:30-96 | the rule behind the policies' invariants: what the start establishes and every tick carries holds at every tick of the run |
| `Registry.EveryPolicyIsShaped` | src/engine.h:22-25 | under each of the nine policies the engine returns 0 exactly when the table's makespan is within the cap, takes that many ticks and idles on the ticks that the table fixes; pids of at most 64 are required of MLFQ and CFS only |
| `Registry.TooLongForAll` | src/engine.h:22-25 | a loadable table of one process of burst 8193 on which all nine return -1 |
| `Registry.NineAgree` | src/engine.c:30-96 | all nine policies (MLFQ and CFS on pids of at most 64) accept the same tables, with the same number of ticks and the same idle ticks, at most last arrival plus the sum of bursts; and all accept when that fits the cap |
| `Registry.SrtfIsBest` | src/sched/srtf.c:69-105 | SRTF accepts whatever any of the nine does, with total waiting no larger |
| `Registry.ThreeSwitchLeast` | docs/ANALYSIS.md:151-151 | FCFS, SJF and non-preemptive priority make no more context switches than any of the nine (MLFQ and CFS on pids of at most 64), and exactly the number of processes less the number of busy blocks |
| `Registry.FloorOf` | src/engine.c:40-44 | each of the nine makes at least that many, with equality exactly when it interrupts nobody |
| `Registry.PolicyIsItsRanking` | src/sched/registry.c:18-29 | each of the nine policies (MLFQ and CFS on pids of at most 64) runs a table exactly as its ranking prescribes: a timeline is its accepted run if and only if it finishes everybody within 8192 ticks, not before its last, and every tick of it goes to the first of the ranking |
| `Disciplines.OneTimeline` | docs/PROJECT.md:630-630 | a ranking leaves nothing open: two timelines of one length that follow it are the same |
| `Disciplines.RunIsTheTimeline` | src/engine.c:15-103 | any scheduler whose ticks follow a ranking accepts a table exactly when a complete timeline within 8192 ticks follows it, and runs that timeline |
| `ScanDisciplines.SjfObeys` | src/sched/sjf.c:46-76 | on every tick of every SJF run the process that ran last goes on if unfinished, and otherwise the tick goes to the first in the table of the active processes of least burst |
| `ScanDisciplines.PriorityNpObeys` | src/sched/priority.c:56-86 | the same for non-preemptive priority and the smallest priority number |
| `ScanDisciplines.SrtfObeys` | src/sched/srtf.c:69-105 | on every tick of every SRTF run an active process with the least burst left to execute runs: the one that ran last if it is such a one, and otherwise the first in the table |
| `ScanDisciplines.PriorityPObeys` | src/sched/priority.c:165-203 | the same for preemptive priority and the smallest priority number |
| `FcfsDiscipline.FcfsObeys` | src/sched/fcfs.c:39-68 | on every tick of every FCFS run the first active process of the table runs |
| `RrDiscipline.RrObeys` | src/sched/rr.c:34-125 | on every tick of every Round Robin run a process in the middle of its turn of q ticks (4 when q is not positive) goes on, and otherwise the tick goes to whoever has been in line longest, since its arrival or since its last full turn, arrivals of a tick ahead of the turn that ends on it |
| `RrDiscipline.TurnGoesOn` | src/sched/rr.c:73-114 | a process given the CPU at the start of a turn has it for q ticks on end, 4 when q is not positive, or for what it still needs if that is less |
| `RrDiscipline.GivesWay` | src/sched/rr.c:95-114 | and no longer: after a full turn the next tick is not its own if anybody else was ready before that tick |
| `MlqDiscipline.MlqObeys` | src/sched/mlq.c:103-180 | on every tick of every MLQ run the highest level with anybody active is served: there whoever has begun a turn, displaced since or not, and otherwise whoever has been in line longest; turns are 2 and 4 ticks, and last to completion at the bottom |
| `MlfqDiscipline.MlfqObeys` | src/sched/mlfq.c:96-229 | the same for MLFQ on pids of at most 64, where a full turn of 2 ticks leads from the top level to the middle, of 4 to the bottom, of 8 to the bottom again, and on every fiftieth tick all start afresh at the top, whoever is in the middle of a turn on the CPU first and the rest in table order |
| `TurnLines.TickKeeps` | src/sched/mlfq.c:197-217 | a tick keeps every level's line in the order in which its members came, a begun turn at its head only, wherever the head goes |
| `TurnLines.AfreshKeeps` | src/sched/mlfq.c:96-127 | so does starting all afresh |
| `CfsDiscipline.CfsObeys` | src/sched/cfs.c:117-154 | on every tick of every CFS run on pids of at most 64 an active process of least virtual runtime runs: the one that ran last if it is such a one, and otherwise the first in the table |
| `CfsDiscipline.AgreesAlways` | src/sched/cfs.c:91-179 | the virtual runtimes are functions of table and timeline: a lone arrival starts at the least of those ready or at 0, companions at 0, and each tick of CPU adds 0 below nice 0, 1 from 0 to 3, 2 at 4 and 3 at 5 |
| `CfsDiscipline.SharesInNumbers` | docs/CFS_NOTES.md:48-55 | when companions find nobody ready, two processes ready through an interval get CPU one to one at nice 0 to 3, two to one between those and nice 4, three to one between those and nice 5, and three to two between 4 and 5, to within twice the table's largest charge |
| `CfsDiscipline.NiceKinds` | docs/CFS_NOTES.md:27-29 | nice values from 0 to 3 cannot be told apart, nor negative ones: exchanging them changes no tick of any run |
| `SrtfOptimality.SrtfMinimisesWaiting` | src/sched/srtf.c:69-105 | for every table and every accepted run of any scheduler at all, SRTF is accepted too, with total waiting and total turnaround no larger |
| `SrtfOptimality.FewestUnfinished` | src/sched/srtf.c:69-105 | at no tick does SRTF leave more unfinished processes than any other legal timeline |
| `SrtfOptimality.ShortestFirstDominates` | src/sched/srtf.c:80-89 | at every tick, whatever number of longest remaining times is set aside, SRTF has the least work left |
| `SrtfOptimality.ShortestLowersTail` | src/sched/srtf.c:86-88 | running a shortest process lowers every positive tail of remaining work by exactly 1 |
| `SrtfOptimality.TailDropsByAtMostOne` | src/engine.c:84-84 | running any process lowers a tail by at most 1 and never raises it |
| `SrtfOptimality.SrtfIsShortestFirst` | src/sched/srtf.c:80-104 | every tick of an SRTF run goes to a process with the least remaining time, and none is wasted |
| `Selection.Best` | src/sched/srtf.c:80-89 | the scan finds an active process of least key, the first in table order among equals, or nothing exactly when none is active |
| `Selection.BestUnique` | src/sched/priority.c:69-82 | that description determines the slot: strict comparison in table order is the global tie-break |
| `Selection.Contend` | src/sched/srtf.c:80-104 | the winner's key is least; an unfinished incumbent loses the CPU only to a strictly smaller key, and a winner other than the incumbent is the first in the table of its key |
| `Selection.NonPreemptiveConserves` | src/sched/sjf.c:46-76 | SJF and non-preemptive priority never idle with work in hand and never fail a guard; whoever they remember is arrived and unfinished |
| `Selection.PreemptiveConserves` | src/sched/priority.c:165-203 | the same for SRTF and preemptive priority |
| `Fcfs.Conserves` | src/sched/fcfs.c:39-87 | FCFS is work-conserving; after every tick the running pid and the waiting part of its queue are the ready pids, each once |
| `RoundRobin.Conserves` | src/sched/rr.c:64-125 | Round Robin is work-conserving for any quantum; the running pid and the queue are the ready pids, each once, and slices stay within the quantum |
| `Mlq.Conserves` | src/sched/mlq.c:103-180 | MLQ is work-conserving; the running pid and the three queues are the ready pids, each once, and the slices kept are within their level's quantum |
| `Mlfq.Conserves` | src/sched/mlfq.c:152-229 | the same for MLFQ on pids of at most 64, boosts included; nobody is ever preempted from the top level |
| `Cfs.Conserves` | src/sched/cfs.c:91-189 | CFS is work-conserving on pids of at most 64 |
| `Mlq.PickKeeps` | src/sched/mlq.c:112-146 | after a pick nobody is queued above the running process, slices are sound, the held pids are unchanged as a multiset, and an idle choice means nobody is active |
| `Mlfq.SelectPicks` | src/sched/mlfq.c:173-194 | the same for MLFQ's choice |
| `Mlfq.BoostKeeps` | src/sched/mlfq.c:96-127 | a boost drops and duplicates nobody, and leaves sound slices |
| `Mlfq.BoostOrderIff` | src/sched/mlfq.c:106-126 | the rebuilt top level is in arrival-then-pid order exactly when nobody runs or the running process comes first anyway |
| `MlfqBoostOrder.RunBoostOrderIff` | src/sched/mlfq.c:106-126 | the same at every boost tick of every run |
| `MlfqBoostOrder.BoostReorders` | src/sched/mlfq.c:118-126 | a family of tables whose run rebuilds the second process ahead of the first at tick 50 |
| `Mlfq.BoostAndAdmissionCommute` | src/sched/mlfq.c:169-171 | boosting after a tick's admissions gives the same state as boosting before them |
| `Mlfq.OthersInOrder` | src/sched/mlfq.c:106-116 | the rebuilt queue behind the running process keeps table order |
| `MlfqStarvation.BoostServes` | src/sched/mlfq.c:96-127 | whoever a boost queues among the first c, up to 25, has had two ticks of CPU or has finished within 2c ticks of it |
| `MlfqStarvation.PlaceBound` | src/sched/mlfq.c:106-126 | a boost queues slot i of the table among the first i + 2, and everybody among the first n |
| `MlfqStarvationBound.LaterPlace` | src/sched/mlfq.c:96-127 | after its first boost slot 24 too is always among the first 25: while the first 25 have work, nobody else is running when a boost comes |
| `MlfqStarvationBound.FirstPlace` | src/sched/mlfq.c:152-160 | by its first boost a process among the first 25 slots is among the first 25 queued, or has had two ticks, or has finished |
| `MlfqStarvationBound.NoStarvation` | src/sched/mlfq.c:162-217 | in an accepted run of a table of any size each of the first 25 processes completes within one boost interval per two ticks of its own burst, counted from the first boost after its arrival, whatever the other bursts are |
| `MlfqStarvationLimit.BoundFailsBeyond25` | src/sched/mlfq.c:96-127 | for every size from 26 to 64 and every slot after the first 25 there is a table on which a one-tick process, promised by tick 100, completes after tick 2500 |
| `MlfqStarvationLimit.LaterSlotsStarve` | src/sched/mlfq.c:106-116 | with 26 or more present from tick 0, those after the first 25 do not run at all for as many boost intervals as the first 25 have work, however short their own bursts |
| `MlqSlices.RunBalanced` | src/sched/mlq.c:15-22 | in every MLQ run, on the two upper levels, executed ticks of the present slice plus ticks left are 2 or 4 for the running process, executed plus saved for a preempted head, and every other queued process has used nothing |
| `MlqSlices.LineRule` | src/sched/mlq.c:112-168 | preemption does not cost a turn: on every tick each level's line (its running process, then its queue) keeps its order, arrivals of that level join at the end, and only the head of the first non-empty line changes it, leaving when it finishes and going to the tail of its own level exactly when this tick makes its slice 2 or 4 |
| `MlfqSlices.RunBalanced` | src/sched/mlfq.c:173-217 | in every run, used plus left is the level's quantum for the running process, used plus saved for a queue's head, and every other queued process has used nothing of its slice |
| `MlfqSlices.LevelRule` | src/sched/mlfq.c:15-23 | invariant 9: on a tick that is no positive multiple of 50 an unfinished process leaves its level only when this tick is its second at the top, and then to the tail of the middle level, or its fourth there, and then to the tail of the bottom; its eighth there sends it to that tail again; otherwise it stays where it is with what it has used, however it is preempted |
| `MlfqSlices.BoostRule` | src/sched/mlfq.c:25-28 | every positive multiple of 50 puts every ready process on the top level with a fresh slice, whatever its level and slice were |
| `NonInterference.PriorityNonInterference` | src/sched/priority.c:165-203 | deleting every process of priority number above c leaves the rest of a preemptive priority run exactly as it was: same ticks, starts and completions; the smaller timeline is the full one with the deleted pids replaced by idle |
| `NonInterference.MlqNonInterference` | src/sched/mlq.c:112-168 | the same for MLQ and every process of a queue below c |
| `NonInterference.PriorityHides` | src/sched/priority.c:176-202 | the two runs correspond at every tick, whether or not they finish |
| `NonInterference.MlqHides` | src/sched/mlq.c:120-145 | the same for MLQ, including the upper queues and saved slices |
| `CfsFairness.StaysFairIff` | src/sched/cfs.c:91-178 | all ready processes' virtual runtimes stay within the table's largest increment up to tick t exactly when no companions arrived together before t below somebody further than that from 0 |
| `CfsFairness.StaysFair` | src/sched/cfs.c:91-178 | so they always do when processes arrive together only on ticks with nothing left of what arrived before |
| `CfsFairness.FairShares` | docs/CFS_NOTES.md:29-48 | two processes both ready through an interval get CPU in inverse proportion to their increments, to within twice the largest increment, when processes arrive together only on ticks with nothing left of what arrived before |
| `CfsFairness.SingleArrivals` | src/sched/cfs.c:102-114 | any number of arrivals at tick 0 and one at a time after it are such arrivals |
| `CfsFairness.SharesWhenLevel` | docs/CFS_NOTES.md:29-48 | the same for any arrivals, as long as companions find nobody ready beyond that increment |
| `CfsFairness.PlacedLedger` | src/sched/cfs.c:156-179 | from its arrival on, a process's virtual runtime grows by its increment per tick of CPU and by nothing else |
| `CfsFairness.NegativeNiceKeepsCpuIff` | src/sched/cfs.c:172-178 | a process of negative nice that ran and is unfinished runs again unless companions arrive together, and then exactly when its virtual runtime is 0 |
| `CfsFairness.NegativeNiceKeepsCpu` | README.md:87-87 | so it runs to completion uninterrupted when processes arrive together only on ticks with nothing left of what arrived before |
| `CfsFairness.PlacedAsDocumentedIff` | src/sched/cfs.c:98-114 | an arrival is placed at the least virtual runtime of those already ready exactly when it arrives alone or that least is 0 |
| `CfsFairness.CompanionsAtZero` | src/sched/cfs.c:102-114 | two or more processes arriving together are all placed at 0 |
| `CfsWitnesses.NegativeNiceLosesCpu` | README.md:87-87 | a family of tables on which a process of negative nice, running and unfinished, is displaced by two arrivals |
| `CfsWitnesses.LatePairIsUnfair` | src/sched/cfs.c:102-114 | a concrete family of tables on which a pair arriving at tick 2 starts 6 below the ready process, twice the bound |
| `CfsFairness.StaysInOrder` | src/sched/cfs.c:41-41 | virtual runtimes are never negative, are 0 before arrival, and are at most 3 per tick, so 64 bits never wrap |
| `Cfs.WeightOf` | src/sched/cfs.c:33-58 | the weight of every nice value, the ends of the range standing for what is beyond them |
| `Cfs.Increment` | src/sched/cfs.c:172-178 | the truncated increment is 0 exactly for negative nice, 1 exactly from 0 to 3, 2 exactly at 4 and 3 exactly at 5 |
| `RrWaiting.WaitingBound` | src/sched/rr.c:64-114 | in every accepted Round Robin run a process waits at most q times (n-1) for each slice of q that its burst takes; 4 stands for q when that is not positive |
| `RrWaiting.OnSlices` | src/sched/rr.c:73-114 | at every tick an unfinished process has had whole slices, except for the one it is on, and has waited at most one turn per slice |
| `RrWaiting.PlaceWithinTurn` | src/sched/rr.c:64-71 | wherever in the queue a process is, those ahead of it take at most quantum times (n-1) ticks |
| `FcfsWorstCase.FcfsMinimisesWorst` | docs/ANALYSIS.md:210-210 | whatever the engine accepts, from any scheduler, FCFS accepts too, and its largest turnaround is no larger |
| `FcfsWorstCase.SomebodyWaitsAsLong` | src/sched/fcfs.c:49-68 | for every process of an FCFS run some process no later in the table has at least its turnaround in any other complete timeline |
| `FcfsWorstCase.FcfsServesFirst` | src/sched/fcfs.c:39-68 | every tick of an FCFS run goes to the first active process of the table |
| `Reductions.LongQuantumIsFcfs` | README.md:99-99 | Round Robin with a quantum at least the longest burst gives FCFS's run: same table, timeline and switches |
| `Reductions.MlqOneLevelIsRr` | README.md:99-99 | MLQ with everyone in queue 0 or 1 gives Round Robin's run with quantum 2 or 4 |
| `Reductions.MlqBottomIsFcfs` | README.md:99-99 | MLQ with everyone in queue 2 gives FCFS's run |
| `Reductions.ShortBurstMlfqIsFcfs` | README.md:99-99 | MLFQ on bursts of at most 2 and pids of at most 64, boosts included and over any length, gives FCFS's run and Round Robin's with quantum 2 |
| `Reductions.SameRuns` | src/engine.c:15-103 | two policies whose states stay related tick by tick have the same run of every table, or both have none |
| `SameArrival.OneArrivalTick` | src/sched/sjf.c:46-76 | when all arrive on one tick SJF and SRTF give the same run, and so do both priority policies; SJF's total waiting is then least among all accepted runs of any scheduler |
| `ContextSwitches.SwitchFloor` | src/engine.c:40-44 | every accepted run of any scheduler makes at least processes less busy blocks switches, with equality exactly when every completion is start plus burst |
| `ContextSwitches.UninterruptedIsLeast` | src/engine.c:40-44 | among work-conserving policies, one that interrupts nobody switches least |
| `ContextSwitches.ThreeInterruptNobody` | src/sched/fcfs.c:57-67 | FCFS, SJF and non-preemptive priority interrupt nobody |
| `ContextSwitches.SwitchesAndBlocks` | src/engine.c:40-44 | context switches plus busy blocks are the maximal same-pid stretches of any timeline |
| `ContextSwitches.OneStretchIff` | src/engine.c:80-90 | a process runs in one stretch exactly when its completion is start plus burst |
| `ContextSwitches.OnlyArrivalsDisplace` | src/sched/srtf.c:96-101 | on every tick of every accepted run, SRTF and preemptive priority displace an unfinished process only for one that arrives on that very tick with a strictly smaller key |
| `ContextSwitches.PreemptionBound` | src/sched/priority.c:192-199 | so their runs make at most 2(n-1) context switches |
| `Capacity.RrRoom` | src/sched/rr.c:34-38 | the ring has room at every push of every Round Robin run |
| `Capacity.MlqRoom` | src/sched/mlq.c:44-56 | MLQ's rings have room at every push, tail or head |
| `Capacity.MlfqRoom` | src/sched/mlfq.c:53-67 | MLFQ's rings have room at every push, boosts included |
| `Capacity.FcfsRoom` | src/sched/fcfs.c:39-47 | FCFS's array, which is never reused, has room at every arrival |
| `PidIndexes.MlfqFitsIff` | src/sched/mlfq.c:53-67 | every pid whose level an MLFQ run records is at most 64 exactly when every pid that arrives before the cap is, and for an accepted run exactly when every pid in the table is |
| `PidIndexes.CfsFitsIff` | src/sched/cfs.c:91-178 | the same for the pids whose virtual runtime a CFS run may read or write |
| `PidIndexes.Pid65Overruns` | src/process.c:44-56 | a table that the loader takes and FCFS runs, on which MLFQ and CFS index slot 65, one past the end, on tick 1 |
| `Processes.ReadySplit` | src/process.c:24-36 | in table order, the ready pids of a tick are those of the tick before and then the arrivals |
| `Rings.PushTail` | src/sched/rr.c:34-38 | writing the slot after the last entry, around the end, appends |
| `Rings.PushHead` | src/sched/mlfq.c:60-67 | writing the slot before the head, around the end, prepends |
| `Rings.PopHead` | src/sched/rr.c:40-47 | moving the head on drops the first entry |
| `FcfsMachine.FcfsState.OnArrival` | src/sched/fcfs.c:39-47 | the in-place callback appends to the queue |
| `FcfsMachine.FcfsState.PickNext` | src/sched/fcfs.c:49-68 | the in-place choice and new state are those of FCFS's function |
| `RoundRobinMachine.RrState.Push` | src/sched/rr.c:34-38 | the ring push appends to the queue it stands for |
| `RoundRobinMachine.RrState.Pop` | src/sched/rr.c:40-47 | the ring pop returns and drops its head |
| `RoundRobinMachine.RrState.PickNext` | src/sched/rr.c:73-93 | the in-place choice and new state are those of Round Robin's function |
| `RoundRobinMachine.RrState.OnTickEnd` | src/sched/rr.c:95-114 | an exhausted slice re-queues the running process at the tail |
| `QueueBanks.QueueBank.PushTail` | src/sched/mlq.c:44-48 | appends to one level's queue and changes no other |
| `QueueBanks.QueueBank.PushHead` | src/sched/mlq.c:50-56 | prepends to one level's queue, saves the slice, and changes no other level |
| `QueueBanks.QueueBank.PopHead` | src/sched/mlq.c:58-68 | drops and returns the head with its saved slice, or a fresh quantum, and clears what was saved |
| `QueueBanks.QueueBank.Highest` | src/sched/mlfq.c:81-91 | the loop finds the first level with anything queued, or -1 |
| `MlqMachine.MlqState.PickNext` | src/sched/mlq.c:112-146 | the in-place choice and new queues, saved slices, level and slice are those of MLQ's function |
| `MlqMachine.MlqState.OnTickEnd` | src/sched/mlq.c:148-168 | an exhausted slice goes to the tail of its own level; the bottom level spends none |
| `MlfqMachine.MlfqState.Boost` | src/sched/mlfq.c:96-127 | the rebuilding loop leaves everyone unfinished on the top level, the running process at its head with a fresh slice, and nobody running |
| `MlfqMachine.MlfqState.PickNext` | src/sched/mlfq.c:162-195 | the in-place choice and new state are those of MLFQ's function, boost included |
| `MlfqMachine.MlfqState.OnTickEnd` | src/sched/mlfq.c:197-217 | an exhausted slice goes one level down, to the tail |
| `RrRun.RunRr` | src/sched/rr.c:34-125 | the engine's loop driving Round Robin's own ring never overflows it, and returns exactly what `Run` does: same return, table, timeline and switches |
| `MlqRun.RunMlq` | src/sched/mlq.c:44-180 | the same for MLQ's three rings |
| `MlfqRun.RunMlfq` | src/sched/mlfq.c:129-229 | on pids of at most 64 the engine's loop driving MLFQ's own arrays needs no room it does not have, and returns exactly what `Run` does: same return, table, timeline and switches |
| `MlfqRun.Tick` | src/engine.c:25-96 | each tick of it is one step of the run |
| `ScanMachines.SjfState.PickNext` | src/sched/sjf.c:46-76 | the loop keeps a running process, or takes the first least burst |
| `ScanMachines.PriorityNpState.PickNext` | src/sched/priority.c:56-86 | the loop keeps a running process, or takes the first least priority number |
| `ScanMachines.SrtfState.PickNext` | src/sched/srtf.c:69-105 | the loop and the incumbent override choose as SRTF's function does |
| `ScanMachines.PriorityPState.PickNext` | src/sched/priority.c:165-203 | the loop and the incumbent override choose as preemptive priority's function does |
| `CfsMachine.CfsState.OnArrival` | src/sched/cfs.c:91-115 | the loop places the arrival at the least virtual runtime of the others active, or at 0 |
| `CfsMachine.CfsState.PickNext` | src/sched/cfs.c:117-154 | the loop and the incumbent override choose as CFS's function does |
| `CfsMachine.CfsState.OnTickEnd` | src/sched/cfs.c:156-179 | the running process, and nobody else, is charged its truncated increment |
| `MetricsReport.Compute` | src/metrics.c:7-61 | the loops compute busy and idle ticks, the three averages, the largest waiting time, the population variance, throughput and utilisation of the table and timeline |
| `MetricsReport.VarianceIs` | src/metrics.c:39-47 | the variance is the mean of the squared waiting times less the square of their mean |
| `MetricsReport.MaxWaiting` | src/metrics.c:34-36 | the largest waiting time bounds all and is attained, or is 0 |
| `MetricsReport.CheckInvariants` | src/metrics.c:63-149 | the checks return 0 exactly when all eight invariants hold |
| `MetricsReport.AcceptedRunsPass` | src/metrics.c:63-149 | on every accepted run of any scheduler they do hold |
| `MetricsReport.RunOne` | src/main.c:85-98 | running, measuring and checking returns 0 exactly when the engine does: the checks never fail a run |

## Left out

- Command line, trace files, CSV files, printed messages and charts (`src/main.c`, `src/csv.c`, `tools/plot.py`): input and output only.
- Reading and sorting a trace (`src/process.c`): its result is taken as `Fresh` or `Loaded`, which states what its checks and its sort establish.
- The registry and its lookup by name (`src/sched/registry.c`), `void *` state and `destroy`: a scheduler is a value, and `Registry.RunPolicy` is a match.
- `MetricsReport.Compute`: averages, throughput and variance are exact reals, so rounding is not modelled, and the variance stands for the standard deviation, whose square root is not taken.
- `Engine.EngineRun`: calls a scheduler's callbacks as functions from state to state, and calls `init` itself, where `src/main.c:85-88` does so just before; the array forms of Round Robin, MLQ and MLFQ are run by the engine's loop in `RrRun`, `MlqRun` and `MlfqRun`; those of the others are tied to the functions callback by callback, with `Capacity.FcfsRoom` for FCFS's array.
- `MlfqMachine.MlfqState`: `level_of` is written as the source writes it and, as there, never read.
- `QueueBanks.QueueBank`: the two-dimensional queue array is one array of three rows.
- `ScanMachines`: the callbacks that do nothing in `sjf.c`, `srtf.c` and `priority.c` (`on_arrival`, `on_tick_end`) have no method; they are identities in `Selection.NonPreemptive` and `Selection.Preemptive`.
- `CfsMachine.CfsState`: the 64-bit virtual runtimes are integers; `CfsFairness.StaysInOrder` bounds them by three per tick.
- Signed overflow of the `int` tick arithmetic for arrivals or bursts near the limits of 32 bits: all integers are unbounded here.
- `CfsFairness.FairShares`: stands, with `CfsDiscipline.SharesInNumbers`, for the equal and proportional shares of `docs/CFS_NOTES.md:29-48` as a finite bound, a difference of at most 2 ticks at nice 0 throughout; for companions that find somebody ready `CfsFairness.SharesWhenLevel` asks that they are not placed too low, which is exact for the spread of virtual runtimes (`CfsFairness.StaysFairIff`) and sufficient for the shares.
- `CfsFairness.NegativeNiceKeepsCpu`: excludes companions that find somebody ready, for which `README.md:87` is false (`CfsWitnesses.NegativeNiceLosesCpu`).
- `MlfqRun.RunMlfq`: asks for pids of at most 64, as every MLFQ and CFS theorem does; beyond them the code writes outside its arrays, and what it does then is not modelled (`PidIndexes.MlfqFitsIff`).
- What `docs/PROJECT.md` and `docs/CFS_NOTES.md` say of the real Linux scheduler: not in this code.
