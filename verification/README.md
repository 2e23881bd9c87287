# DesCartes in Dafny

DesCartes is a deterministic discrete-event simulator. Everything it promises — a fixed order of
events, exact simulated time, runs that can be replayed — depends on several mutable structures
staying consistent with each other over whole runs. This project models those structures and proves
the promises for every run.

## What is modelled

Each mutable component appears twice: as a state machine over values (functions from state to state),
on which the properties of whole runs are proved, and as a class whose methods follow the original's
loops and branches and are proved to compute exactly those functions. The contracts of the methods
also say what changes in terms of the object's own fields, without those functions.

- **The kernel** (`Kernel`, `Scheduling`): the queue of (time, event id) entries, the task tables,
  lazily skipped cancelled tasks, tasks that re-schedule themselves under their own id, an arbitrary
  tie-break policy, and the buffer of deferred wakes that is drained after each event. What a
  component or closure does in one event is a list of commands; what a policy does is an arbitrary
  answer, in range or not. A run alternates steps with whatever its driver schedules, spawns, cancels
  or defers between them. Run properties: bookkeeping and clock (`KernelInvariants`), FIFO order and
  final cancellation, and entries processed exactly at their times (`KernelRuns`), retry and periodic
  chains (`TaskChains`), `pop` against `pop_with_policy` (`PopEquivalence`), id freshness (`Ids`).
- **The async runtime** (`Runtime`, `AsyncRuntime`, `RuntimeSimulation`): task table with queued
  marks, ready queue, spawn queues, handles, and the timer map whose next deadline is mirrored by
  `TimerTick` entries of the kernel's queue. A future is what its polls answer and do, and what its
  destructors do when it is cancelled. Run properties: exactly-once polling (`RuntimePolling`), what
  the code run by a step does (`RuntimeCode`), no lost spawn (`RuntimeSpawns`), exact timers
  (`RuntimeTimers`), exact sleeps and the withdrawal of their timers (`SimSleep`); `RuntimeSteps` shows
  that the runtime is one component of the kernel, so the kernel's results hold of it.
- **Record, replay and scripts** (`Traces`, `Decisions`, `FrontierPolicies`, `ReadyPolicies`,
  `SharedReplayRng`): the policies and the draw provider as objects, and whole simulations with
  deterministic user code and a deterministic driver that ask an oracle for tie-breaks, ready-task
  choices and random draws (`ClosedLoop`). `Lockstep` shows that two oracles that answer alike give the same run;
  `RecordReplay` and `ScriptReplay` apply it to replayed traces and to scripts.
- **The client/server retry system** (`RetryPolicies`, `Queues`, `ClientServer`, `RetrySystem`,
  `RetrySimulation`, `Quiescence`, `RetryAttempts`): one retrying client and one server with a thread
  pool and an optional queue, closed over the kernel's queue. Tie-breaks, retry delays and service
  times are arbitrary.
- **The monitor** (`Monitors`, `MonitorWindows`): fixed windows, per-window counts, and integrals and
  greatest values of queue lengths.

Times are 64-bit nanosecond counts with the original's saturating arithmetic (`SimTime`). 64-bit
words in `Ids` are naturals below 2^64 with explicit wrap-around.

Run `dafny verify dfyconfig.toml` to check the project. Lemmas carry `{:induction false}`: their proofs
are their bodies, without automatic induction.

Places where the code is not what one would expect, and what is proved instead:

- The flushing loop of the monitor does not end at the end of representable time, nor with a window
  of length zero (`Monitors.FlushHangs`). `FlushEndsIsExact` shows that `FlushEnds`, which
  `LiveMonitor.Flush` requires, holds exactly if the loop ends.
- A replayed frontier decision that recorded no ids is not compared with the frontier at all, and
  falls back to the recorded index. `FrontierPolicies.ReplayIsSound` states the exact condition for a
  clean replay with this case in it; `BareDecisionMisses` is a decision that replays cleanly on two
  frontiers without a common event; `RecordedDecisionFits` shows that a clean call is full agreement
  for decisions made by the recording policy.
- The default ready-task policy is documented as deterministic FIFO. Polling fills the
  gap of the polled task with the last one, so the order is kept exactly for at most two tasks
  (`RuntimePolling.FifoKeepsOrder`): of a, b, c the round polls a, then c, then b.
- A handle's spawn outside event processing relies on a poll that is already queued. It is seen
  exactly if one is, or if the driver schedules one (`RuntimeSpawns.DriveSeesSpawns`).
- Two sleeps of one task until one deadline are not independent: withdrawing one timer withdraws both
  (`RuntimeTimers.SleepsShareTheirTimer`). A withdrawal that a tie-break policy puts before the
  registration of the same instant is lost (`SimSleep.EarlyWithdrawalIsLost`); with FIFO tie-breaks
  nothing scheduled before a withdrawal is left when it is processed (`FifoWithdrawsLast`).
- More than one timer tick can be outstanding (`RuntimeTimers.TwoTicksOutstanding`); stale ticks are
  harmless (`StepTimers`).
- The server is not first come, first served: a request can overtake those waiting between the
  completion that frees a thread and the look at the queue (`RetrySystem.NewcomerOvertakes`).
- A token bucket loses tokens if a refill exceeds 32 bits; otherwise it is exact
  (`RetryPolicies.RefillIsExact`).
- A periodic task created with a count of zero runs 2^32 times, as its counter wraps before it is
  compared (`TaskChains.PeriodicTiming`).

## Model

| member | source | states |
|---|---|---|
| Ids.SplitMix64Injective | des-core/src/ids.rs:3-9 | the 64-bit mixer maps two words to one value only if they are the same word |
| Ids.XorIsBitwise | des-core/src/ids.rs:6-8 | exclusive or works on each bit by itself |
| Ids.ShiftMovesBits | des-core/src/ids.rs:6-8 | a right shift by k moves every bit down k places |
| Ids.UuidHalves | des-core/src/ids.rs:14-20 | an id is two mixed words: the low half from seed, domain and counter, the high half from the same shifted on |
| Ids.UuidInjectiveInCounter | des-core/src/ids.rs:14-20 | for a fixed seed and domain, two derived ids are equal exactly when their counters are |
| Ids.TaskMintValue | des-core/src/scheduler.rs:749-757 | the k-th task id is the one derived from the scheduler's seed, the task domain and k |
| Ids.TaskMintIsInjective | des-core/src/scheduler.rs:749-763 | the id source of a scheduler with any seed never repeats an id before its 64-bit counter wraps |
| Scheduling.Scheduler.WithSeed | des-core/src/scheduler.rs:576-591 | a fresh scheduler has clock and counters at zero and empty tables, and satisfies the invariant between steps |
| Scheduling.Scheduler.Schedule | des-core/src/scheduler.rs:595-627 | adds exactly one entry, under the next event id, for that component and payload, at the clock plus the delay or at the end of time if that is sooner; nothing else changes |
| Scheduling.Scheduler.ScheduleTask | des-core/src/scheduler.rs:749-763 | makes the task pending under the next derived id and queues one entry for it at the clock plus the delay, capped |
| Scheduling.Scheduler.ScheduleTaskAt | des-core/src/scheduler.rs:766-778 | makes the task pending under the given id and queues one entry for it at exactly the given time |
| Scheduling.Scheduler.Cancel | des-core/src/scheduler.rs:808-818 | answers true exactly when the task was pending; then it moves from pending to cancelled |
| Scheduling.Scheduler.TakeResult | des-core/src/scheduler.rs:857-862 | yields a stored result and removes it, so that it is yielded once |
| Scheduling.Scheduler.DeferWake | des-core/src/scheduler.rs:93-99 | appends to the buffer of deferred wakes |
| Scheduling.Scheduler.DrainDeferredWakes | des-core/src/scheduler.rs:103-110 | wake number i becomes an entry under the i-th next event id, due its own delay after the clock at the drain; the buffer is empty then |
| Scheduling.Scheduler.IsCancelledTaskEvent | des-core/src/scheduler.rs:737-744 | recognises the entry of a cancelled task and uses its mark up |
| Scheduling.Scheduler.Pop | des-core/src/scheduler.rs:670-683 | the first live entry in (time, event id) order; an entry leaves the queue exactly if it is that one or a cancelled one in front of it; the clock moves to it |
| Scheduling.Scheduler.PopLive | des-core/src/scheduler.rs:690-699 | the loop that skips cancelled entries drops exactly the cancelled ones ahead of the first live entry |
| Scheduling.Scheduler.CollectFrontier | des-core/src/scheduler.rs:700-718 | the collected frontier is every live entry of least time in heap order; only cancelled entries of that time are dropped |
| Scheduling.Scheduler.PopWithPolicy | des-core/src/scheduler.rs:690-735 | for any stateful policy: the frontier entry that the answer points to, the last one if it points past the end, asked exactly when there is a choice; an entry leaves the queue exactly if it is that one or a cancelled one due by then |
| Scheduling.Scheduler.Perform | des-core/src/scheduler.rs:595-862 | one command of running code: its entry at its exact time, its task under the next id, its cancellation, its result taken, or its wake at the end of the buffer |
| Scheduling.Scheduler.ExecuteTask | des-core/src/scheduler.rs:821-854 | runs a pending task once, stores its result unless it is a unit or it re-scheduled itself, and keeps nested bookkeeping |
| Scheduling.FifoChoice | des-core/src/scheduler.rs:211-220 | the FIFO policy's index is the first one of the least event id |
| Scheduling.FifoAnswersZero | des-core/src/scheduler.rs:211-220 | on every frontier the scheduler collects, the FIFO policy answers index 0 |
| Scheduling.SortedUnique | des-core/src/scheduler.rs:385-393 | a list in strict heap order is the only heap-order listing of its entries |
| Scheduling.FrontierInOrder | des-core/src/scheduler.rs:700-718 | a policy is offered exactly the live entries that none precedes in time, by increasing event id |
| Scheduling.Simulation.ProcessEventEntry | des-core/src/lib.rs:212-225 | dispatches an entry to its component's code or to the task's execution |
| Scheduling.Simulation.Step | des-core/src/lib.rs:363-403 | pop, process, drain is one transition of the kernel, labelled with the policy's own answer |
| KernelInvariants.PopCorrect | des-core/src/scheduler.rs:690-744 | for every policy answer the popped entry is live and of least time, no other live entry is lost, what goes with it is cancelled and due, and the clock is set to its time |
| KernelInvariants.SpawnIdIsNew | des-core/src/scheduler.rs:749-763 | the id of a newly scheduled task was never handed out before |
| KernelInvariants.ForgetInv | des-core/src/scheduler.rs:737-744 | skipping cancelled entries closes their books, and no others, and loses no live entry |
| KernelInvariants.DrainSchedules | des-core/src/scheduler.rs:103-110 | draining schedules every wake once, in order, each at its own time, and nothing else |
| KernelInvariants.ExecuteInv | des-core/src/scheduler.rs:821-854 | executing a task keeps the books, whatever it schedules, spawns or cancels, itself included |
| KernelInvariants.StepInv | des-core/src/lib.rs:363-403 | a step keeps the task books and the queue's order, and never turns the clock back; with nothing live it empties the queue and leaves the clock |
| KernelInvariants.DriveInv | des-core/src/lib.rs:465-533 | whatever a driver schedules, spawns, cancels, takes or defers between two steps keeps the books; time does not move |
| KernelInvariants.RunInv | des-core/src/lib.rs:363-403 | over whole runs, with any commands issued in and between steps: queued task ids are distinct and exactly the disjoint union of pending and cancelled, finished ids are neither, and no entry is in the past |
| KernelInvariants.EmptyQueueLeaksNothing | des-core/src/scheduler.rs:557-568 | in any run from any state that satisfies the invariant, an empty queue means no task is pending or half-cancelled |
| KernelInvariants.SeededRunLeaksNothing | des-core/src/scheduler.rs:576-591 | the same for a scheduler constructed with any seed, set up with any commands and then run |
| KernelRuns.FifoPicksTop | des-core/src/scheduler.rs:211-220 | answer 0 picks the least live entry in heap order |
| KernelRuns.FifoOrder | des-core/src/scheduler.rs:385-393 | under FIFO the processed (time, event id) pairs strictly increase over the whole run, events scheduled or deferred on the way or between steps included |
| KernelRuns.FifoPairs | des-core/src/scheduler.rs:385-393 | the same in numbers: of two entries processed under FIFO the first is earlier, or as early and scheduled before |
| KernelRuns.EachEventOnce | des-core/src/lib.rs:363-403 | whatever policies answer, no run processes an event id twice |
| KernelRuns.EntriesAreExact | des-core/src/scheduler.rs:690-735 | along every run a live entry stays queued until it is processed with the clock exactly at its time, once, or until its task is cancelled; the clock never passes it and the run is not over before |
| KernelRuns.ScheduledIsExact | des-core/src/scheduler.rs:595-627 | an event that code running at time t schedules or defers with a delay is processed at exactly t plus the delay, once, in every run |
| KernelRuns.DrivenIsExact | des-core/src/scheduler.rs:595-627 | the same for what a driver schedules between steps |
| KernelRuns.StepKeeps | des-core/src/scheduler.rs:808-854 | a step that runs something else can at most cancel a task |
| KernelRuns.GoneForever | des-core/src/scheduler.rs:737-744 | an id handed out but not pending is never processed again and gets no result, whatever happens in and between later steps |
| KernelRuns.CancellationIsFinal | des-core/src/scheduler.rs:808-818 | after cancelling a pending task no continuation processes its entry, so none lets it move the clock, and none stores a result for it |
| KernelRuns.CancellationInsideAStepIsFinal | des-core/src/scheduler.rs:808-854 | the same for a cancellation issued by running code among other commands, chains included |
| TaskChains.StepRunsTask | des-core/src/task.rs:212-253 | after executing, a task is pending as its next attempt at its delay, or gone with exactly its last result stored; by kind of task in the next rows |
| TaskChains.FailedAttemptGoesOn | des-core/src/task.rs:222-245 | a failed attempt number k that is not the last leaves the task pending as attempt k + 1 under its id, due base * 2^k later (at once from k = 64 on, where the power wraps), without a result |
| TaskChains.LastAttemptEnds | des-core/src/task.rs:212-235 | a success or the failure of the last attempt ends the chain: not pending, nothing queued, and its outcome is the stored result |
| TaskChains.NothingAfterSuccess | des-core/src/task.rs:212-220 | no attempt follows a success in any run |
| TaskChains.OverForGood | des-core/src/scheduler.rs:821-854 | a task that is over is never executed again |
| TaskChains.PeriodicGoesOn | des-core/src/task.rs:298-327 | an execution of a periodic task is followed by the next one an interval later, unless it was the last of its count; it never stores a result |
| TaskChains.OnceEnds | des-core/src/scheduler.rs:846-853 | a one-off task is over after its execution; its result is stored exactly if it is not the unit |
| TaskChains.RetryTiming | des-core/src/task.rs:212-253 | attempt number i of a retry chain happens at first + base * (2^i - 1), at most max(1, max attempts) times, and exactly so often if all fail, nobody cancels, and the queue runs empty |
| TaskChains.SpawnedIsDue | des-core/src/scheduler.rs:749-763 | a task scheduled by code or a driver is pending under a new id and due its delay after that instant, unless a later command cancels it |
| TaskChains.SpawnedRetryTiming | des-core/src/task.rs:212-253 | so a retry task follows its plan from where it was scheduled, in every run |
| TaskChains.RetryTimeClosedForm | des-core/src/task.rs:232-232 | doubling delays add up to base * (2^k - 1) |
| TaskChains.PeriodicTiming | des-core/src/task.rs:298-327 | execution number i of a counted periodic task happens at its planned time, at most n times, and exactly n times when run to exhaustion uncancelled; a count of zero stands for 2^32 |
| TaskChains.PeriodicTimeClosedForm | des-core/src/task.rs:298-327 | the planned time of execution number i is first + i * interval |
| TaskChains.ChainCompletes | des-core/src/task.rs:298-327 | an uncancelled chain stays pending until its last execution |
| PopEquivalence.PopEqualsFifo | des-core/src/scheduler.rs:670-735 | repeated plain pops and repeated pops with the FIFO policy process the same entries at the same clocks for ever, whatever is done in and between steps |
| Runtime.Earliest | des-core/src/async_runtime.rs:659-662 | the next deadline is the least key of the timer map, none exactly when it is empty |
| Runtime.WakeDue | des-core/src/async_runtime.rs:720-729 | firing due timers removes exactly the deadlines that have come |
| AsyncRuntime.DesRuntime.Spawn | des-core/src/async_runtime.rs:499-522 | a direct spawn is live, queued, new, and keeps the ready queue sound |
| AsyncRuntime.DesRuntime.HandleSpawn | des-core/src/async_runtime.rs:153-177 | the next id is taken and waits at the end of the handle's queue, the other queue as before; inside event processing a poll is deferred, outside nothing else happens |
| AsyncRuntime.DesRuntime.HandleCancel | des-core/src/async_runtime.rs:180-198 | the task's requests leave the handle's queue, the others keep their order; inside event processing a `Cancel` is deferred |
| AsyncRuntime.DesRuntime.Retain | des-core/src/async_runtime.rs:183-193 | the filtering loop keeps all other requests, in order |
| AsyncRuntime.DesRuntime.PollTask | des-core/src/async_runtime.rs:551-573 | one poll: nothing without a key or a task, otherwise what the future answers and does |
| AsyncRuntime.DesRuntime.InstallSpawns | des-core/src/async_runtime.rs:583-594 | draining the spawn queue installs its requests as live, queued tasks |
| AsyncRuntime.DesRuntime.PollSnapshot | des-core/src/async_runtime.rs:618-640 | the polling loop with its swap-removes is the state machine's round, for any ready-task policy |
| AsyncRuntime.DesRuntime.PollReadyTasks | des-core/src/async_runtime.rs:580-642 | install, snapshot and poll, as one round |
| AsyncRuntime.DesRuntime.WakeTask | des-core/src/async_runtime.rs:645-657 | a live task that is not queued is marked and joins the end of the ready queue; nothing changes for any other |
| AsyncRuntime.DesRuntime.ScheduleNextTimerTick | des-core/src/async_runtime.rs:659-678 | the least deadline is remembered; exactly if that is news, one tick is scheduled, at exactly that deadline or now if it has passed |
| AsyncRuntime.DesRuntime.RegisterTimer | des-core/src/async_runtime.rs:680-693 | a live task joins the end of the deadline's list, and the tick is re-armed; a dead task's request is ignored |
| AsyncRuntime.DesRuntime.CancelTimer | des-core/src/async_runtime.rs:695-712 | removes every registration of the task at the deadline, and the deadline with its last one; other deadlines stay |
| AsyncRuntime.DesRuntime.HandleTimerTick | des-core/src/async_runtime.rs:714-733 | wakes the tasks of all due deadlines in order, re-arms, and polls |
| AsyncRuntime.DesRuntime.DropFromTimers | des-core/src/async_runtime.rs:743-753 | the two loops of a cancellation remove the task from every list and every emptied deadline |
| AsyncRuntime.DesRuntime.DropTask | des-core/src/async_runtime.rs:741-741 | takes the task out of the table; if it was there, its destructors run, and may use the handles and defer wakes |
| AsyncRuntime.DesRuntime.CancelTask | des-core/src/async_runtime.rs:735-756 | drops the future, takes the task out of the table and of every deadline's list, and re-arms |
| AsyncRuntime.DesRuntime.ProcessEvent | des-core/src/async_runtime.rs:767-822 | one runtime event; if tasks are ready afterwards, a poll is queued for the current instant |
| RuntimeSimulation.Simulation.Step | des-core/src/lib.rs:363-403 | with a runtime installed and any two stateful policies, one step is one transition of the runtime state machine |
| RuntimeSimulation.Simulation.Install | des-core/src/async_runtime.rs:122-131 | installing the runtime schedules its first poll for the current instant |
| RuntimeSimulation.Simulation.Drive | des-core/src/async_runtime.rs:153-242 | what a driver does between steps is one move of the state machine: the handles then only touch the spawn queues |
| RuntimeSimulation.LabelsCoverPolicies | des-core/src/async_runtime.rs:618-622 | whatever a stateful ready-task policy does, some list of answers does too, so results about all lists cover all policies |
| RuntimeSteps.StepIsKernelStep | des-core/src/lib.rs:363-403 | a step of a simulation with a runtime is a step of the kernel: the runtime only issues scheduler commands |
| RuntimeSteps.RunIsKernelRun | des-core/src/lib.rs:363-403 | every run with a runtime, driver moves included, is a run of the kernel, so every kernel result holds of it |
| RuntimeCode.PollAllPerforms | des-core/src/async_runtime.rs:618-640 | a round does to the scheduler and the spawn queues what its polls do, in the order in which they are polled |
| RuntimeCode.StepRunsCode | des-core/src/lib.rs:363-403 | the kernel step that a runtime step is includes every act of the code run by it: component, task, polled futures, destructors |
| RuntimeCode.CodeIsExact | des-core/src/scheduler.rs:595-627 | so whatever that code schedules or defers with a delay is processed at exactly that time, once, in every run |
| RuntimePolling.InstallOnce | des-core/src/async_runtime.rs:583-604 | draining installs each waiting request once, as a live task at the end of the ready queue, in order |
| RuntimePolling.RemoveKeepsOrder | des-core/src/async_runtime.rs:183-193 | withdrawing a request keeps all others, in order |
| RuntimePolling.WakesInOrder | des-core/src/async_runtime.rs:720-729 | the tasks that a tick wakes join the ready queue in the order of their deadlines |
| RuntimePolling.PollAllOnce | des-core/src/async_runtime.rs:618-640 | for every policy the polled tasks are the live part of the snapshot, each once; a polled task survives exactly when it is pending |
| RuntimePolling.PollAllPermutes | des-core/src/async_runtime.rs:618-640 | whatever the policy answers, a round polls a permutation of the live part of its snapshot |
| RuntimePolling.FifoRound | des-core/src/async_runtime.rs:618-640 | a round of live tasks under the FIFO policy polls them in the order that moving the last task into each gap gives |
| RuntimePolling.FifoKeepsOrder | des-core/src/async_runtime.rs:618-623 | that order is the one of the ready queue exactly for at most two tasks |
| RuntimePolling.EventPollsOnce | des-core/src/async_runtime.rs:767-811 | Poll, Wake and TimerTick poll exactly the tasks that were spawned, marked, woken or due, each once, and leave the ready queue empty; other events poll nothing |
| RuntimePolling.QuietKeepsTasks | des-core/src/async_runtime.rs:789-800 | the other events leave the task table alone, but for a cancelled task, and the ready queue |
| RuntimePolling.StepReady | des-core/src/async_runtime.rs:580-657 | any step keeps the ready queue free of duplicates and in agreement with the queued marks |
| RuntimePolling.ReadyAlways | des-core/src/async_runtime.rs:580-657 | the same in every reachable state of every run, driver moves included |
| RuntimeSpawns.NoLostSpawn | des-core/src/async_runtime.rs:122-143 | in every reachable state a waiting spawn request has a Poll queued for the current instant, if no driver left one without |
| RuntimeSpawns.StepSeesSpawns | des-core/src/async_runtime.rs:153-242 | any step, whatever code spawns in it, keeps that |
| RuntimeSpawns.DriveSeesSpawns | des-core/src/async_runtime.rs:166-174 | between steps the requests a driver leaves waiting are seen exactly if a poll is queued for this instant or the driver schedules one |
| RuntimeSpawns.InstalledSeesSpawns | des-core/src/async_runtime.rs:122-131 | the poll queued by the installation, at any time and beside any other events, covers the spawns made before |
| RuntimeSpawns.SpawnStep | des-core/src/async_runtime.rs:580-604 | in one step, without time moving, a waiting request is installed and polled, or withdrawn by a handle, or still waits |
| RuntimeSpawns.NeverFreshAgain | des-core/src/async_runtime.rs:153-198 | a request installed or withdrawn once never waits again |
| RuntimeSpawns.StepSpawns | des-core/src/async_runtime.rs:153-177 | after a step whose code spawns through a handle, the request waits in the handle's queue under the id taken, exactly unless later code of the step withdrew it |
| RuntimeSpawns.StepTakesIds | des-core/src/async_runtime.rs:157-157 | a step hands out exactly as many ids as its code spawns tasks |
| RuntimeSpawns.DriveSpawns | des-core/src/async_runtime.rs:153-177 | the same for a driver between steps |
| RuntimeSpawns.WaitsUntilWithdrawn | des-core/src/async_runtime.rs:180-198 | a request stays in its queue exactly as long as its own kind of handle does not withdraw it |
| RuntimeSpawns.SpawnsAreHonoured | des-core/src/async_runtime.rs:580-604 | along every run no time passes and the simulation is not over while a request waits, until its task is installed and polled or a handle withdraws it |
| RuntimeSpawns.SpawnedIsHonoured | des-core/src/async_runtime.rs:153-177 | so a task spawned by code in a step and not withdrawn in it is polled before time moves on |
| RuntimeSpawns.EventSeesReady | des-core/src/async_runtime.rs:807-811 | whenever an event of the runtime leaves tasks in the ready queue, a poll is queued for that instant |
| RuntimeSpawns.NoStrandedTask | des-core/src/async_runtime.rs:807-811 | in every reachable state a ready task has its poll queued |
| RuntimeSpawns.FinishedEnds | des-core/src/async_runtime.rs:631-634 | a task whose future is done when polled has ended: it is in no table or queue |
| RuntimeSpawns.CancelEnds | des-core/src/async_runtime.rs:735-741 | processing a cancellation ends that task, and no other |
| RuntimeSpawns.EndedForGood | des-core/src/async_runtime.rs:580-642 | a task that has ended is never polled again in any run |
| RuntimeTimers.ScheduleTickArms | des-core/src/async_runtime.rs:659-678 | re-arming makes the remembered deadline the least one and adds exactly one tick, at that deadline or now if it has passed, if it is news, and otherwise none |
| RuntimeTimers.StepTimers | des-core/src/async_runtime.rs:659-756 | every step keeps the mirror between timer map and tick entries, stale ticks included |
| RuntimeTimers.TimerStep | des-core/src/async_runtime.rs:659-733 | a step never passes a registered deadline; the registration stays, is withdrawn, or fires with its live task polled |
| RuntimeTimers.TimersAreExact | des-core/src/async_runtime.rs:714-733 | along every run, driver moves included, a registration not withdrawn fires when the clock is exactly at its deadline (at once if past), and the run cannot end before |
| RuntimeTimers.OnlyItsEventRegisters | des-core/src/async_runtime.rs:680-712 | a step makes a task registered at a deadline exactly if it processes that registration for the live task |
| RuntimeTimers.CancelUnregisters | des-core/src/async_runtime.rs:743-753 | cancelling a task takes it out of every deadline's list and leaves every other task in |
| RuntimeTimers.SleepsShareTheirTimer | des-core/src/async_runtime.rs:695-712 | of two registrations of one task at one deadline, one cancellation removes both |
| RuntimeTimers.TwoTicksOutstanding | des-core/src/async_runtime.rs:659-678 | registering a deadline and then an earlier one leaves two ticks in the queue |
| SimSleep.SleepFuture.Poll | des-core/src/async_runtime.rs:857-884 | one poll of the future: its target, whether it is ready, and its one timer event, in numbers; without a current time it stays pending and unchanged |
| SimSleep.SleepFuture.Drop | des-core/src/async_runtime.rs:887-902 | dropping an unfinished sleep asks for the withdrawal of its timer exactly while the runtime polls a task |
| SimSleep.PendingSleepSetsOneTimer | des-core/src/async_runtime.rs:857-884 | a sleep sets one timer however often it is polled, keeps its target, and is ready exactly from the target on |
| SimSleep.ZeroSleepIsReady | des-core/src/async_runtime.rs:857-884 | a sleep is ready at its first poll, without touching a timer, exactly if its length is zero or time is at its end |
| SimSleep.FallsAsleep | des-core/src/async_runtime.rs:290-304 | a poll that starts a pending sleep, among whatever else it does, leaves the task waiting for its target, in every round |
| SimSleep.SleepersWake | des-core/src/async_runtime.rs:857-884 | along every run, driver moves included, a sleeping task is polled when the clock is exactly at its target, never oversleeps, and the run cannot end before |
| SimSleep.SleepIsExact | des-core/src/async_runtime.rs:857-884 | a task that starts a sleep at t0, whatever else it does in that poll, is polled at exactly t0 plus the duration, under any policies |
| SimSleep.GoodAlways | des-core/src/async_runtime.rs:659-756 | what the timer and sleep results need holds in every reachable state |
| SimSleep.InstalledIsGood | des-core/src/async_runtime.rs:122-143 | installing a runtime without timers, at any time and beside any other events, establishes it |
| SimSleep.SetUpIsGood | des-core/src/async_runtime.rs:122-143 | it holds in every reachable state after any setup by the driver and the installation |
| SimSleep.DropDefersWithdrawal | des-core/src/async_runtime.rs:887-902 | a sleep dropped while its task is polled has the withdrawal of its timer queued for this instant |
| SimSleep.WithdrawnForGood | des-core/src/async_runtime.rs:695-712 | processing the withdrawal removes the registration, which stays away as long as that deadline is not registered for the task again |
| SimSleep.FifoWithdrawsLast | des-core/src/async_runtime.rs:307-319 | with FIFO tie-breaks nothing scheduled before the withdrawal, a registration in particular, is left in the queue when it is processed |
| SimSleep.EarlyWithdrawalIsLost | des-core/src/async_runtime.rs:307-319 | processed before the registration of the same instant, the withdrawal leaves the timer behind |
| Decisions.NormalizeIsCanonical | des-explore/src/schedule_explore.rs:64-67 | sorting and removing repetitions gives equal lists exactly for equal sets |
| Decisions.ExtractDecisions | des-explore/src/schedule_explore.rs:215-266 | the loop with its two running ordinals extracts the decisions of a trace, or panics on an index out of bounds |
| Decisions.ObservedChoice | des-explore/src/schedule_explore.rs:187-256 | the chosen id if it was recorded, otherwise the one at the recorded index, a panic exactly if there is none; under the sorted distinct ids |
| ScriptReplay.ExtractableExtracts | des-explore/src/schedule_explore.rs:187-194 | extraction panics exactly if some decision has neither |
| Decisions.DecisionScript.Put | des-explore/src/schedule_explore.rs:138-140 | inserting replaces the normalised key and yields the previous choice |
| Decisions.DecisionScript.FromList | des-explore/src/schedule_explore.rs:127-136 | a script from observed decisions; later decisions win |
| Decisions.DecisionScript.Get | des-explore/src/schedule_explore.rs:142-146 | looks the normalised key up |
| Decisions.DecisionScript.MatchDecision | des-explore/src/schedule_explore.rs:151-176 | found, not scripted, or a real mismatch of choice sets for that kind, time and ordinal |
| Decisions.ObservedAreFound | des-explore/src/schedule_explore.rs:127-146 | decisions whose keys do not repeat later are found with their own choice |
| FrontierPolicies.RecordingFrontierPolicy.Choose | des-explore/src/frontier.rs:132-156 | the inner policy's clamped choice, recorded with the whole choice point |
| FrontierPolicies.ReplayFrontierPolicy.Choose | des-explore/src/frontier.rs:266-346 | one replayed choice with every error case and its index |
| FrontierPolicies.ReplayFrontierPolicy.FromTraceEvents | des-explore/src/frontier.rs:228-244 | starts at the first scheduler decision of a trace, without an error |
| FrontierPolicies.ReplayCall | des-explore/src/frontier.rs:254-346 | a call stays clean exactly when a decision is left and the choice point fits it in time, set and choice; then it consumes it and repeats the choice |
| FrontierPolicies.ReplayFailure | des-explore/src/frontier.rs:266-346 | which error a failing call reports, in the order in which the reasons are looked for, and what it then answers |
| FrontierPolicies.ReplayIsSound | des-explore/src/frontier.rs:254-346 | after n calls there is no error exactly when all n choice points fit their decisions in order, and then every answer is the recorded choice |
| FrontierPolicies.ErrorIsSticky | des-explore/src/frontier.rs:266-270 | after the first error every later call answers 0 and consumes nothing |
| FrontierPolicies.RecordedDecisionFits | des-explore/src/frontier.rs:289-310 | for a recorded decision, fitting means the same time and the same set of event ids |
| FrontierPolicies.OlderDecisionFits | des-explore/src/schedule_explore.rs:196-206 | older traces, which list the ids only with the metadata, are compared just so |
| FrontierPolicies.BareDecisionFits | des-explore/src/frontier.rs:289-346 | a decision without ids stays clean exactly at its time and within its index, whatever the frontier |
| FrontierPolicies.BareDecisionMisses | des-explore/src/frontier.rs:289-346 | one such decision replays cleanly on two frontiers without a common event |
| FrontierPolicies.ExplorationFrontierPolicy.Choose | des-explore/src/frontier.rs:58-111 | a scripted id that is present is forced, otherwise the base policy chooses; the ordinal counts calls and the choice is recorded |
| FrontierPolicies.ExploreCall | des-explore/src/frontier.rs:58-111 | the event with the scripted id if it is there; otherwise what the base policy answers, brought into range |
| ReadyPolicies.RecordingReadyTaskPolicy.Choose | des-explore/src/ready_task.rs:114-131 | the inner policy's clamped choice, recorded |
| ReadyPolicies.ReplayReadyTaskPolicy.Choose | des-explore/src/ready_task.rs:226-307 | one replayed choice, with FIFO fallback for traces without ready-task decisions |
| ReadyPolicies.ReplayReadyTaskPolicy.FromTraceEvents | des-explore/src/ready_task.rs:194-214 | starts at the first ready-task decision; falls back exactly when there is none |
| ReadyPolicies.ReadyReplayCall | des-explore/src/ready_task.rs:226-307 | a call stays clean exactly in fallback, or when a decision is left and the ready set fits it; then it repeats the recorded task |
| ReadyPolicies.ReadyReplayFailure | des-explore/src/ready_task.rs:226-307 | which error a failing call reports, in order; it then answers 0 |
| ReadyPolicies.ReadyErrorIsSticky | des-explore/src/ready_task.rs:226-230 | after the first error every call answers 0 and changes nothing |
| ReadyPolicies.ExplorationReadyTaskPolicy.Choose | des-explore/src/ready_task.rs:43-92 | the same as for frontiers, by task id |
| ReadyPolicies.ReadyExploreCall | des-explore/src/ready_task.rs:43-92 | the scripted task if it is ready; otherwise what the base policy answers, brought into range |
| SharedReplayRng.SharedChainedRandomProvider.SampleExpSeconds | des-explore/src/shared_replay_rng.rs:53-74 | replays the recorded draws in order, panics on a site mismatch, then draws from the fallback; every draw is recorded |
| ClosedLoop.CodeSeesAnswers | des-explore/src/shared_replay_rng.rs:53-74 | code that draws random numbers sees the answers to its own queries, in order, until it is done |
| ClosedLoop.ClosedStepIsStep | des-core/src/lib.rs:363-403 | a step of a simulation with deterministic user code and any oracle is a step of the runtime state machine |
| ClosedLoop.DriveAndStepIsRun | des-core/src/lib.rs:363-403 | with what a deterministic driver does before it, a closed step is two moves of the runtime state machine |
| Lockstep.StepSound | des-core/src/lib.rs:363-403 | event ids stay distinct and the ready queue sound in every reachable state |
| Lockstep.RunLock | des-core/src/lib.rs:363-403 | two oracles, one of which keeps answering like the other, drive any deterministic simulation through the same states |
| RecordReplay.RecordThenReplay | des-explore/src/frontier.rs:131-346 | record n steps of any deterministic program under any policies; replaying the trace from the same state gives the same state after every number of steps, with no error and no panic |
| RecordReplay.ReplayConsumesTrace | des-explore/src/ready_task.rs:113-307 | a complete replay consumes every decision and every draw |
| RecordReplay.InStepKept | des-explore/src/shared_replay_rng.rs:53-74 | one query: the replay answers what was recorded and consumes exactly that |
| RecordReplay.MiddleOfTrace | des-explore/src/frontier.rs:228-244 | a trace's decisions and draws are filtered out by kind, each in its place |
| ScriptReplay.ScriptFinds | des-explore/src/schedule_explore.rs:127-266 | the script made from a trace answers each of its decisions, at its ordinal, with the recorded choice |
| ScriptReplay.ScriptIsFixedPoint | des-explore/src/schedule_explore.rs:127-266 | running the exploration policies with the script extracted from a trace, over any base policy, gives the same states and the same trace again |
| ScriptReplay.ScriptSurvivesReordering | des-explore/src/frontier.rs:57-111 | on the same choice points listed in any order the script chooses the same ids, and extraction gives the same decisions |
| ScriptReplay.RecordingIsExtractable | des-explore/src/schedule_explore.rs:187-266 | extracting the decisions of a recorded simulation never panics |
| RetryPolicies.FixedRetryPolicy.ShouldRetry | des-components/src/retry_policy.rs:447-459 | counts every question; a retry exactly within the limit and not after a success, at the fixed delay |
| RetryPolicies.ExponentialBackoffPolicy.ShouldRetry | des-components/src/retry_policy.rs:112-149 | the same, at the backoff delay capped by the maximum when there is no jitter |
| RetryPolicies.TokenBucketRetryPolicy.ShouldRetry | des-components/src/retry_policy.rs:200-254 | the same; immediate exactly when a token is left after a refill in 32-bit arithmetic, and never more tokens than the bucket holds |
| RetryPolicies.RefillIsExact | des-components/src/retry_policy.rs:200-212 | a refill fills the bucket as it should exactly if the addition fits 32 bits; otherwise tokens are lost |
| RetryPolicies.SuccessBasedRetryPolicy.ShouldRetry | des-components/src/retry_policy.rs:322-365 | the same, at the longer delay while the success rate is low |
| RetryPolicies.SuccessBasedRetryPolicy.RecordOutcome | des-components/src/retry_policy.rs:312-319 | the window keeps exactly the latest outcomes |
| RetryPolicies.GrantsAreBounded | des-components/src/retry_policy.rs:137-149 | however often a policy is asked, it grants no more retries than its limit leaves |
| RetryPolicies.FailuresAreGranted | des-components/src/retry_policy.rs:137-149 | after failures every question is granted until the limit is reached, and none after that |
| Queues.FifoQueue.Put | des-components/src/queue.rs:240-250 | joins the end exactly if the queue has no limit or fewer items than its limit |
| Queues.FifoQueue.Get | des-components/src/queue.rs:252-258 | the front item leaves; none exactly if the queue is empty |
| Queues.FifoServesInOrder | des-components/src/queue.rs:239-258 | through any arrivals and departures those who left and those still waiting are, in order, those who waited first and those let in |
| Queues.PriorityQueue.Put | des-components/src/queue.rs:559-574 | adds with a fresh sequence number unless full |
| Queues.PriorityQueue.Get | des-components/src/queue.rs:452-462 | the heap's greatest entry is the earliest arrival among those of least priority number |
| Queues.DequeueKeepsItems | des-components/src/queue.rs:239-271 | dequeueing loses and duplicates nothing and keeps the enqueued/dequeued balance |
| Queues.EnqueueKeepsItems | des-components/src/queue.rs:558-595 | enqueueing keeps the balance and the capacity |
| Queues.EqualPrioritiesAreFifo | des-components/src/queue.rs:452-462 | with equal priorities the priority queue is first in, first out |
| ClientServer.SimpleClient.SendOneAttempt | des-components/src/simple_client.rs:108-159 | a new attempt id; its timeout is queued at exactly the send time plus the timeout, and its request to the server for the same instant; nothing else |
| ClientServer.SimpleClient.OnResponse | des-components/src/simple_client.rs:162-235 | a success ends the request and counts as a success; a failure uses up a retry, scheduled after its delay, or ends the request as a failure if none is left; an unknown request changes nothing |
| ClientServer.SimpleClient.OnTimeout | des-components/src/simple_client.rs:238-293 | only the current attempt's timeout counts; it uses up a retry, scheduled after its delay, or ends the request as a failure if none is left |
| ClientServer.SimpleClient.OnRetry | des-components/src/simple_client.rs:296-312 | an active request sends its next attempt, with the retry budget it has |
| ClientServer.SimpleClient.OnSend | des-components/src/simple_client.rs:325-348 | a new request under the next id sends attempt number 1 and starts with an unused retry budget |
| ClientServer.SimpleClient.ProcessEvent | des-components/src/simple_client.rs:318-361 | one client event |
| ClientServer.SimpleServer.OnRequest | des-components/src/server.rs:183-227 | a free thread takes the attempt for its service time; otherwise it joins the end of a queue with room, nothing being rejected; only otherwise it is rejected, answered after one millisecond |
| ClientServer.SimpleServer.OnCompletion | des-components/src/server.rs:284-346 | frees the thread, answers with a success after exactly one millisecond, and looks at the queue at once exactly if a thread is free and something waits |
| ClientServer.SimpleServer.RejectRequest | des-components/src/server.rs:349-386 | counts and answers a rejection |
| ClientServer.SimpleServer.OnQueued | des-components/src/server.rs:389-456 | the loop starts queued attempts while threads are free |
| ClientServer.SimpleServer.ProcessEvent | des-components/src/server.rs:516-545 | one server event |
| RetrySystem.StepRequestOk | des-components/src/simple_client.rs:162-312 | under late responses, stale timeouts and duplicate retries, attempts made plus retries scheduled always equal one plus the retries granted |
| RetrySystem.ClientAccounted | des-components/src/simple_client.rs:162-348 | requests sent are successes, permanent failures and active ones |
| RetrySystem.StepBalanced | des-components/src/server.rs:183-456 | attempts sent are under way, processed, rejected, in a thread or queued; busy threads are exactly the scheduled completions, within capacity |
| RetrySystem.ServerBalanced | des-components/src/server.rs:302-304 | the saturating decrement of the thread count never saturates |
| RetrySystem.StepWatched | des-components/src/server.rs:338-345 | an idle thread never faces a waiting request without a look at the queue scheduled for this very instant |
| RetrySystem.ProcessQueuedMoves | des-components/src/server.rs:389-456 | a look at the queue ends with no free thread or nothing waiting, and loses no attempt |
| RetrySystem.StepSystemInv | des-components/src/simple_client.rs:318-361 | every step keeps all of this, for any tie-breaks, delays and service times |
| RetrySystem.RunSystemInv | des-components/src/server.rs:516-545 | so does every run |
| RetrySystem.NetStepIsKernelStep | des-core/src/lib.rs:363-403 | a step of the client/server system is a step of the kernel: both components only schedule events |
| RetrySystem.NetRunIsKernelRun | des-core/src/lib.rs:363-403 | so every run of the system is a run of the kernel |
| RetrySystem.NewcomerOvertakes | des-components/src/server.rs:183-227 | between the completion that frees a thread and the look at the queue, a new request takes the thread ahead of those waiting |
| RetrySimulation.Simulation.Step | des-core/src/lib.rs:363-403 | with any tie-break policy, popping, the two components and the drain make one transition of the system |
| Quiescence.NoStuckRequest | des-components/src/simple_client.rs:108-312 | every active request has its retry or the timeout of its current attempt ahead of it |
| Quiescence.AmplificationIsBounded | des-components/src/retry_policy.rs:137-149 | at any time at most (1 + max retries) attempts per request were sent |
| Quiescence.AttemptsCountUp | des-components/src/simple_client.rs:296-312 | in every run a request sends attempts numbered 1, 2, 3, ... within its limit, and none once it has ended |
| Quiescence.AttemptsAreNumbered | des-components/src/simple_client.rs:108-159 | a message to the server that a step adds carries a new attempt id and the next number of its request |
| Quiescence.StepPays | des-components/src/server.rs:183-456 | every step uses up some of the potential of pending events, queued items and unspent retries |
| Quiescence.RunsDry | des-components/src/simple_client.rs:108-312 | the system runs out of events within its potential |
| Quiescence.MoreRequestsKept | des-components/src/simple_client.rs:318-361 | a request scheduled between any two steps keeps the invariant and adds 6 + 6 * max retries to the potential |
| Quiescence.StartInv | des-components/src/simple_client.rs:65-88 | a fresh client and server with any finite number of requests to send satisfy the invariant, with (6 + 6 * max retries) steps of potential each |
| Quiescence.DryIsDone | des-components/src/server.rs:284-346 | without events, and with a thread, nothing is active or queued and every attempt was processed or rejected |
| Quiescence.SystemQuiesces | des-components/src/retry_policy.rs:447-459 | from such a start every long enough run ends with all requests decided and processed + rejected = attempts sent |
| RetryAttempts.StepCarries | des-components/src/server.rs:183-456 | an attempt starts its way only by being sent and ends it only by its response; in between it is in exactly one message, thread or queue place |
| RetryAttempts.EachAttemptIsAnsweredOnce | des-components/src/server.rs:183-456 | in every run an attempt has at most one response and none unsent; when the system has run dry each attempt sent has exactly one |
| RetryAttempts.StartsInOrder | des-components/src/server.rs:389-456 | a look at a first-in-first-out queue starts exactly as many attempts as there are free threads and items, from the front, each completing after its own service time |
| RetryAttempts.RejectsOnlyWithoutRoom | des-components/src/server.rs:183-227 | a step rejects exactly if an attempt arrives while no thread is free and the queue has no room |
| RetryAttempts.UnlimitedNeverRejects | des-components/src/server.rs:190-223 | over every run a server whose queue has no limit rejects nothing |
| RetryAttempts.RequestOutcome | des-components/src/simple_client.rs:162-293 | a success ends an active request as a success; a failure of its current attempt uses up a retry or ends it as a failure; nothing else ends it |
| RetryAttempts.TotalsCount | des-components/src/simple_client.rs:318-361 | requests, attempts, successes, failures and completions are counted exactly when they happen |
| RetryAttempts.TimeoutsAreExact | des-components/src/simple_client.rs:135-143 | in every reachable state the timeout of an active request's current attempt is due at exactly its send time plus the timeout |
| Monitors.LiveMonitor.FinalizeQueues | des-explore/src/monitor.rs:398-410 | the loop closes every queue's integral and finds the greatest length of the window: no queue exceeds it and one attains it |
| Monitors.LiveMonitor.CloseWindow | des-explore/src/monitor.rs:398-519 | the summary has the bounds and counts of the window that ends; the next opens where it ended, with all counts zero |
| Monitors.LiveMonitor.Flush | des-explore/src/monitor.rs:385-396 | the loop closes every window that has ended, then brings the integrals up to now |
| Monitors.LiveMonitor.Record | des-explore/src/monitor.rs:339-382 | flushes, then adds one to exactly the count of the observation's kind, or integrates a queue length |
| Monitors.FlushingNeverEnds | des-explore/src/monitor.rs:385-388 | at the end of representable time, or with a zero window, the loop's condition is still true after any number of turns |
| Monitors.FlushEndsIsExact | des-explore/src/monitor.rs:385-388 | the loop ends exactly if now is before the end of the window, or the window is not zero and now is not the end of time |
| Monitors.FlushHangs | des-explore/src/monitor.rs:385-388 | a fresh monitor with a zero window hangs at once, and any monitor at the end of time |
| MonitorWindows.WindowsTile | des-explore/src/monitor.rs:385-519 | windows tile time without gaps, and the open one is the one of the latest observation |
| MonitorWindows.CountedInItsWindow | des-explore/src/monitor.rs:347-382 | in every window each of the five counts is the number of observations of its kind whose time lies in it |
| MonitorWindows.CountsAreConserved | des-explore/src/monitor.rs:347-382 | all counts of all windows together are the number of observations other than queue lengths |
| MonitorWindows.PeaksAreExact | des-explore/src/monitor.rs:212-245 | in every window the greatest length kept of a queue is that of the length it starts with and those observed in it |
| MonitorWindows.IntegralsAreExact | des-explore/src/monitor.rs:212-245 | for every queue closed and open integrals add up to the exact integral of its length as a step function |
| MonitorWindows.WindowIntegralsBounded | des-explore/src/monitor.rs:221-228 | each closed integral of a queue is at most the queue's own greatest length in that window times the window |

## Left out

- Overflow of the 64-bit event and task-id counters: the bookkeeping results are for runs that hand out fewer than 2^64 task ids.
- Access to an installed component or runtime between steps (`get_component_mut`): a driver uses the scheduler and the runtime's handles.
- Task ids made outside the scheduler (`TaskId::new`), removal of components, `peek`, and the executors that call `step` in a loop.
- A panic inside a task or component: code is taken to return.
- `2_u64.pow`, `-= 1` and the addition of tokens panic on overflow in debug builds; the model follows release builds, which wrap.
- Real futures, wakers, locks, thread-locals and downcasts: a task is what its polls answer and do, in order.
- `Simulation.ProcessForeignEntry` of `RuntimeSimulation` performs the scheduler side and the spawn-queue side of a closure's acts one after the other; the two do not interact.
- `BinaryHeap` and `BTreeMap` are sets and maps with the code's own order; heaps give up a greatest entry.
- RetrySystem.RequestOk: the retry policy is its budget; the delay it asks for is arbitrary. `NoRetryPolicy` is a budget of zero.
- The HTTP payload of a request, response times and all other metrics: no state that the properties depend on.
- Jitter, powers of the backoff multiplier, token refill from elapsed seconds, service-time distributions: arbitrary functions or values.
- Summaries of the monitor keep each queue's integral and greatest length instead of the mean over queues; latencies, baseline distance, recovery and score are not modelled.
- Concurrency recordings of traces and their validation, trace files, the harness that chooses which policies to install, splitting and policy search.
- `des-axum`, `des-tonic`, `des-tokio`, metrics export, charts and reports.
