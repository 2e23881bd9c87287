/**
 * The async runtime as a state machine on top of the kernel: task table, ready queue, spawn queues
 * and the timer map whose earliest deadline is mirrored by `TimerTick` events.
 */
module Runtime {
  import opened SimTime
  import opened Options
  import opened Ids
  import opened Vectors
  import Kernel

  type TaskId = nat

  datatype RuntimeEvent =
    | Poll
    | Wake(task: TaskId)
    | Cancel(task: TaskId)
    | RegisterTimer(task: TaskId, deadline: Time)
    | CancelTimer(task: TaskId, deadline: Time)
    | TimerTick

  /** Event payloads: the runtime's own, or those of any other component. */
  datatype Message = ToRuntime(event: RuntimeEvent) | Foreign(tag: int)

  /** What running code may do: use the scheduler, or a runtime handle. */
  datatype Act =
    | Sched(command: Kernel.Command<Message>)
    | SpawnVia(isLocal: bool)
    | CancelVia(isLocal: bool, task: TaskId)

  /** One poll of a future: whether it finished, and what it did, its destructors included if it did. */
  datatype PollWork = PollWork(ready: bool, acts: seq<Act>)

  /** What each future does when it is polled, or when it is dropped. */
  type Futures = TaskId -> PollWork

  /** A ready-task policy's transition: from its state, the clock and the tasks left, a new state and an index. */
  type ReadyAnswer<!S> = (S, Time, seq<TaskId>) -> (S, nat)

  /** The tasks registered at each deadline. */
  type Timers = map<Time, seq<TaskId>>

  /** `tasks` maps each live task to whether it is marked as queued. */
  datatype Rt = Rt(
    nextTaskId: nat,
    tasks: map<TaskId, bool>,
    readyQueue: seq<TaskId>,
    spawnQueue: seq<TaskId>,
    spawnQueueLocal: seq<TaskId>,
    timers: Timers,
    nextTimerDeadline: Option<Time>)

  /** The kernel, the runtime, and the component id under which the runtime is registered. */
  datatype Sys = Sys(key: Uuid, k: Kernel.State<Message>, rt: Rt)

  // ----- spawn queues and handles -----

  function Remove(q: seq<TaskId>, id: TaskId): (r: seq<TaskId>)
    ensures forall x :: x in r <==> x in q && x != id
  {
    if q == [] then [] else if q[0] == id then Remove(q[1..], id) else [q[0]] + Remove(q[1..], id)
  }

  function WakeUp(key: Uuid, e: RuntimeEvent): Kernel.Command<Message> {
    Kernel.Defer(Kernel.Deferred(0, key, ToRuntime(e)))
  }

  /** What an act asks of the kernel: the handles only defer wakes to the runtime. */
  function CommandOf(key: Uuid, a: Act): Kernel.Command<Message> {
    match a
    case Sched(c) => c
    case SpawnVia(_) => WakeUp(key, Poll)
    case CancelVia(_, id) => WakeUp(key, Cancel(id))
  }

  function CommandsOf(key: Uuid, acts: seq<Act>): seq<Kernel.Command<Message>> {
    if acts == [] then [] else [CommandOf(key, acts[0])] + CommandsOf(key, acts[1..])
  }

  /** What an act does to the spawn queues: it takes a new id, or withdraws a waiting request. */
  function ActOn(rt: Rt, a: Act): Rt {
    match a
    case Sched(_) => rt
    case SpawnVia(isLocal) =>
      var r := rt.(nextTaskId := rt.nextTaskId + 1);
      if isLocal then r.(spawnQueueLocal := r.spawnQueueLocal + [rt.nextTaskId])
      else r.(spawnQueue := r.spawnQueue + [rt.nextTaskId])
    case CancelVia(isLocal, id) =>
      if isLocal then rt.(spawnQueueLocal := Remove(rt.spawnQueueLocal, id))
      else rt.(spawnQueue := Remove(rt.spawnQueue, id))
  }

  function Perform(s: Sys, a: Act): Sys {
    Sys(s.key, Kernel.Do(s.k, CommandOf(s.key, a)), ActOn(s.rt, a))
  }

  function PerformAll(s: Sys, acts: seq<Act>): (r: Sys)
    ensures r.key == s.key && r.k.clock == s.k.clock
    ensures r.rt.tasks == s.rt.tasks && r.rt.readyQueue == s.rt.readyQueue
    ensures r.rt.timers == s.rt.timers && r.rt.nextTimerDeadline == s.rt.nextTimerDeadline
    decreases |acts|
  {
    if acts == [] then s else PerformAll(Perform(s, acts[0]), acts[1..])
  }

  /** Installs every queued spawn request as a live, queued task. */
  function Install(rt: Rt): Rt {
    var ids := rt.spawnQueue + rt.spawnQueueLocal;
    rt.(tasks := rt.tasks + (map id | id in ids :: true),
        readyQueue := rt.readyQueue + ids,
        spawnQueue := [],
        spawnQueueLocal := [])
  }

  // ----- polling -----

  /** Polls one task of the poll set, unless it is gone. */
  function PollOne(s: Sys, id: TaskId, polls: Futures): (r: Sys)
    ensures r.key == s.key && r.k.clock == s.k.clock && r.rt.readyQueue == s.rt.readyQueue
    ensures r.rt.timers == s.rt.timers && r.rt.nextTimerDeadline == s.rt.nextTimerDeadline
    ensures forall x :: x != id ==>
            ((x in r.rt.tasks <==> x in s.rt.tasks) && (x in s.rt.tasks ==> r.rt.tasks[x] == s.rt.tasks[x]))
    ensures id in r.rt.tasks ==> id in s.rt.tasks && !r.rt.tasks[id]
    ensures id in s.rt.tasks ==> (id in r.rt.tasks <==> !polls(id).ready)
  {
    if id !in s.rt.tasks then s
    else
      var r := PerformAll(s.(rt := s.rt.(tasks := s.rt.tasks[id := false])), polls(id).acts);
      if polls(id).ready then r.(rt := r.rt.(tasks := r.rt.tasks - {id})) else r
  }

  /**
   * Polls a snapshot in the order the ready-task policy chooses. The policy has a state and sees
   * the clock and what is left of the snapshot. Also yields the tasks polled, in order.
   */
  function PollAll<S>(s: Sys, ps: S, answer: ReadyAnswer<S>, left: seq<TaskId>, polls: Futures): (Sys, S, seq<TaskId>)
    decreases |left|
  {
    if left == [] then (s, ps, [])
    else
      var (ps', pick) := answer(ps, s.k.clock, left);
      var i := Clamp(pick, |left|);
      var id := left[i];
      var (r, psEnd, polled) := PollAll(PollOne(s, id, polls), ps', answer, SwapRemove(left, i), polls);
      (r, psEnd, (if id in s.rt.tasks then [id] else []) + polled)
  }

  function PollReady<S>(s: Sys, ps: S, answer: ReadyAnswer<S>, polls: Futures): (Sys, S, seq<TaskId>) {
    var rt := Install(s.rt);
    PollAll(s.(rt := rt.(readyQueue := [])), ps, answer, rt.readyQueue, polls)
  }

  function WakeTask(rt: Rt, id: TaskId): Rt {
    if id !in rt.tasks || rt.tasks[id] then rt
    else rt.(tasks := rt.tasks[id := true], readyQueue := rt.readyQueue + [id])
  }

  function WakeAll(rt: Rt, ids: seq<TaskId>): (r: Rt)
    ensures r.timers == rt.timers && r.tasks.Keys == rt.tasks.Keys && r.nextTimerDeadline == rt.nextTimerDeadline
    decreases |ids|
  {
    if ids == [] then rt else WakeAll(WakeTask(rt, ids[0]), ids[1..])
  }

  // ----- timers -----

  predicate IsLeast(t: Time, ts: set<Time>) {
    t in ts && forall u <- ts :: t <= u
  }

  lemma {:induction false} LeastExists(ts: set<Time>)
    requires ts != {}
    ensures exists t :: IsLeast(t, ts)
    decreases |ts|
  {
    var x :| x in ts;
    if ts == {x} {
      assert IsLeast(x, ts);
    } else {
      LeastExists(ts - {x});
      var y :| IsLeast(y, ts - {x});
      var least := if x < y then x else y;
      forall u <- ts ensures least <= u {
        assert u == x || u in ts - {x};
      }
      assert IsLeast(least, ts);
    }
  }

  ghost function Earliest(timers: Timers): (t: Option<Time>)
    ensures t.None? <==> timers.Keys == {}
    ensures t.Some? ==> IsLeast(t.value, timers.Keys)
  {
    if timers.Keys == {} then None
    else
      LeastExists(timers.Keys);
      var t: Time :| IsLeast(t, timers.Keys);
      Some(t)
  }

  /** Schedules a tick for the earliest deadline, unless that deadline is already mirrored. */
  ghost function ScheduleTick(s: Sys): Sys {
    var next := Earliest(s.rt.timers);
    if next == s.rt.nextTimerDeadline then s
    else
      var r := s.(rt := s.rt.(nextTimerDeadline := next));
      if next.None? then r
      else r.(k := Kernel.PushComponent(s.k, Since(next.value, s.k.clock), s.key, ToRuntime(TimerTick)))
  }

  function AddTimer(rt: Rt, id: TaskId, deadline: Time): Rt {
    var list := if deadline in rt.timers then rt.timers[deadline] else [];
    rt.(timers := rt.timers[deadline := list + [id]])
  }

  ghost function Register(s: Sys, id: TaskId, deadline: Time): Sys {
    if id !in s.rt.tasks then s else ScheduleTick(s.(rt := AddTimer(s.rt, id, deadline)))
  }

  /** Every registration of the task at that deadline goes, and the deadline with its last one. */
  function DropTimer(rt: Rt, id: TaskId, deadline: Time): Rt {
    if deadline !in rt.timers then rt
    else
      var list := Remove(rt.timers[deadline], id);
      rt.(timers := if list == [] then rt.timers - {deadline} else rt.timers[deadline := list])
  }

  ghost function Unregister(s: Sys, id: TaskId, deadline: Time): Sys {
    var r := s.(rt := DropTimer(s.rt, id, deadline));
    if deadline in s.rt.timers && deadline !in r.rt.timers then ScheduleTick(r) else r
  }

  /** Wakes the tasks of every deadline that has come, earliest deadline first. */
  ghost function WakeDue(rt: Rt, now: Time): (r: Rt)
    ensures r.tasks.Keys == rt.tasks.Keys && r.nextTimerDeadline == rt.nextTimerDeadline
    ensures r.timers == map d | d in rt.timers && d > now :: rt.timers[d]
    decreases |rt.timers|
  {
    var first := Earliest(rt.timers);
    if first.None? || first.value > now then rt
    else WakeDue(WakeAll(rt.(timers := rt.timers - {first.value}), rt.timers[first.value]), now)
  }

  function DropTimers(rt: Rt, id: TaskId): Rt {
    rt.(timers := map d | d in rt.timers && Remove(rt.timers[d], id) != [] :: Remove(rt.timers[d], id))
  }

  /** Drops the task's future: it is no longer in the table when its destructors run and do `acts`. */
  function DropFuture(s: Sys, id: TaskId, acts: seq<Act>): (r: Sys)
    ensures r.key == s.key && r.k.clock == s.k.clock
    ensures r.rt.tasks == s.rt.tasks - {id} && r.rt.readyQueue == s.rt.readyQueue
    ensures r.rt.timers == s.rt.timers && r.rt.nextTimerDeadline == s.rt.nextTimerDeadline
  {
    PerformAll(s.(rt := s.rt.(tasks := s.rt.tasks - {id})), if id in s.rt.tasks then acts else [])
  }

  ghost function CancelTask(s: Sys, id: TaskId, acts: seq<Act>): Sys {
    var r := DropFuture(s, id, acts);
    ScheduleTick(r.(rt := DropTimers(r.rt, id)))
  }

  // ----- one event -----

  /**
   * The handler of one runtime event; also yields the policy's new state and the tasks polled. The
   * acts of a cancelled future are those of its destructors.
   */
  ghost function Handled<S>(
      s: Sys, e: RuntimeEvent, ps: S, answer: ReadyAnswer<S>, polls: Futures): (Sys, S, seq<TaskId>)
  {
    match e
    case Poll => PollReady(s, ps, answer, polls)
    case Wake(id) => PollReady(s.(rt := WakeTask(s.rt, id)), ps, answer, polls)
    case Cancel(id) => (CancelTask(s, id, polls(id).acts), ps, [])
    case RegisterTimer(id, deadline) => (Register(s, id, deadline), ps, [])
    case CancelTimer(id, deadline) => (Unregister(s, id, deadline), ps, [])
    case TimerTick =>
      PollReady(ScheduleTick(s.(rt := WakeDue(s.rt.(nextTimerDeadline := None), s.k.clock))), ps, answer, polls)
  }

  /** Handles an event, then asks for another poll if tasks are ready. */
  ghost function ProcessEvent<S>(
      s: Sys, e: RuntimeEvent, ps: S, answer: ReadyAnswer<S>, polls: Futures): (Sys, S, seq<TaskId>)
  {
    var (r, ps', polled) := Handled(s, e, ps, answer, polls);
    (if r.rt.readyQueue == [] then r else r.(k := Kernel.PushComponent(r.k, 0, s.key, ToRuntime(Poll))), ps', polled)
  }

  // ----- one step of the whole system -----

  /**
   * How one step went: the frontier policy's answer, what a foreign component or task did and how
   * it ended, and, for a runtime event, the ready-task policy's answers in order and what each
   * polled or dropped future did.
   */
  datatype Label = Label(
    pick: nat,
    acts: seq<Act>,
    ok: bool,
    output: Kernel.Output,
    readyPicks: nat -> nat,
    polls: Futures)

  predicate IsFor(e: Kernel.Entry<Message>, key: Uuid) {
    e.ComponentEvent? && e.component == key && e.payload.ToRuntime?
  }

  predicate IsEvent(e: Kernel.Entry<Message>, key: Uuid, event: RuntimeEvent) {
    IsFor(e, key) && e.payload.event == event
  }

  function AnswerFrom(picks: nat -> nat): ReadyAnswer<nat> {
    (n: nat, t: Time, ready: seq<TaskId>) => (n + 1, picks(n))
  }

  /** Whether the code behind an entry runs: a task's does unless it was cancelled or has gone. */
  predicate Starts(k: Kernel.State<Message>, e: Kernel.Entry<Message>) {
    e.ComponentEvent? || (e.taskId in k.pending && e.taskId !in k.cancelled)
  }

  function ForeignWork(key: Uuid, l: Label): Kernel.Work<Message> {
    Kernel.Work(CommandsOf(key, l.acts), l.ok, l.output)
  }

  ghost function ProcessForeign(s: Sys, e: Kernel.Entry<Message>, l: Label): Sys {
    Sys(s.key, Kernel.Process(s.k, e, ForeignWork(s.key, l)), PerformAll(s, if Starts(s.k, e) then l.acts else []).rt)
  }

  ghost function ProcessEntry(s: Sys, e: Kernel.Entry<Message>, l: Label): Sys {
    if IsFor(e, s.key) then ProcessEvent(s, e.payload.event, 0, AnswerFrom(l.readyPicks), l.polls).0
    else ProcessForeign(s, e, l)
  }

  ghost function PolledOn(s: Sys, e: Kernel.Entry<Message>, l: Label): seq<TaskId> {
    if IsFor(e, s.key) then ProcessEvent(s, e.payload.event, 0, AnswerFrom(l.readyPicks), l.polls).2 else []
  }

  ghost predicate Running(s: Sys) { Kernel.Live(s.k) != {} }

  ghost function ChosenEntry(s: Sys, l: Label): Kernel.Entry<Message>
    requires Running(s)
  {
    Kernel.Chosen(s.k, l.pick)
  }

  ghost function Advanced(s: Sys, l: Label): Sys
    requires Running(s)
  {
    s.(k := Kernel.Popped(s.k, ChosenEntry(s, l)))
  }

  ghost function Step(s: Sys, l: Label): Sys {
    if !Running(s) then s.(k := Kernel.Sweep(s.k, MAX_NANOS))
    else
      var r := ProcessEntry(Advanced(s, l), ChosenEntry(s, l), l);
      r.(k := Kernel.Drain(r.k))
  }

  /** The tasks a step polls, in order. */
  ghost function PolledBy(s: Sys, l: Label): seq<TaskId> {
    if !Running(s) then [] else PolledOn(Advanced(s, l), ChosenEntry(s, l), l)
  }

  // ----- runs -----

  /** An act between two steps. Outside event processing the handles only touch the spawn queues. */
  function DriveOne(s: Sys, a: Act): Sys {
    Sys(s.key, if a.Sched? then Kernel.Do(s.k, a.command) else s.k, ActOn(s.rt, a))
  }

  function DriveAll(s: Sys, acts: seq<Act>): (r: Sys)
    ensures r.key == s.key && r.k.clock == s.k.clock
    ensures r.rt.tasks == s.rt.tasks && r.rt.readyQueue == s.rt.readyQueue
    ensures r.rt.timers == s.rt.timers && r.rt.nextTimerDeadline == s.rt.nextTimerDeadline
    decreases |acts|
  {
    if acts == [] then s else DriveAll(DriveOne(s, acts[0]), acts[1..])
  }

  /** A run alternates steps with what its driver does between them. */
  datatype Move = Turn(l: Label) | Drive(acts: seq<Act>)

  ghost function Make(s: Sys, m: Move): Sys {
    match m
    case Turn(l) => Step(s, l)
    case Drive(acts) => DriveAll(s, acts)
  }

  ghost function Run(s: Sys, ms: seq<Move>): Sys
    decreases |ms|
  {
    if ms == [] then s else Run(Make(s, ms[0]), ms[1..])
  }

  /** Installing the runtime schedules its first poll for the current instant. */
  function Installed(s: Sys): Sys {
    s.(k := Kernel.PushComponent(s.k, 0, s.key, ToRuntime(Poll)))
  }
}
