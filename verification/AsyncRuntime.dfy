/** The async runtime as a mutable component, proved against the runtime state machine. */
module AsyncRuntime {
  import opened SimTime
  import opened Options
  import opened Ids
  import opened Vectors
  import opened Scheduling
  import R = Runtime
  import opened Runtime
  import opened RuntimePolling
  import Kernel

  /** Any ready-task policy: a private state and a transition that also yields an index, in range or not. */
  class ReadyTaskPolicy<S> {
    var state: S
    const answer: ReadyAnswer<S>

    constructor (initial: S, answer: ReadyAnswer<S>)
      ensures state == initial && this.answer == answer
    {
      state := initial;
      this.answer := answer;
    }

    method Choose(time: Time, ready: seq<TaskId>) returns (index: nat)
      modifies this
      ensures (state, index) == old(answer(state, time, ready))
    {
      var (s, i) := answer(state, time, ready);
      state := s;
      index := i;
    }
  }

  class DesRuntime<S> {
    var nextTaskId: nat
    /** The live tasks, each with its `queued` flag. */
    var tasks: map<TaskId, bool>
    var readyQueue: seq<TaskId>
    const readyTaskPolicy: ReadyTaskPolicy<S>
    var spawnQueue: seq<TaskId>
    var spawnQueueLocal: seq<TaskId>
    var timers: Timers
    var nextTimerDeadline: Option<Time>
    /** Set by the first event. */
    var runtimeKey: Option<Uuid>

    ghost function Now(): Rt
      reads this
    {
      Rt(nextTaskId, tasks, readyQueue, spawnQueue, spawnQueueLocal, timers, nextTimerDeadline)
    }

    ghost function Here(scheduler: Scheduler<Message>, key: Uuid): Sys
      reads this, scheduler
    {
      Sys(key, scheduler.Now(), Now())
    }

    constructor (policy: ReadyTaskPolicy<S>)
      ensures readyTaskPolicy == policy && ReadyOk(Now()) && runtimeKey == None
      ensures nextTaskId == 0 && readyQueue == [] && spawnQueue == [] && spawnQueueLocal == []
      ensures tasks == map[] && timers == map[] && nextTimerDeadline == Earliest(timers)
    {
      readyTaskPolicy := policy;
      nextTaskId, tasks, readyQueue := 0, map[], [];
      spawnQueue, spawnQueueLocal := [], [];
      timers, nextTimerDeadline, runtimeKey := map[], None, None;
    }

    /** Spawns directly, before the runtime is installed. */
    method Spawn() returns (id: TaskId)
      modifies this
      ensures id == old(nextTaskId) && nextTaskId == id + 1
      ensures tasks == old(tasks)[id := true] && readyQueue == old(readyQueue) + [id]
      ensures spawnQueue == old(spawnQueue) && spawnQueueLocal == old(spawnQueueLocal)
      ensures timers == old(timers) && nextTimerDeadline == old(nextTimerDeadline) && runtimeKey == old(runtimeKey)
      ensures old(ReadyOk(Now())) ==> ReadyOk(Now())
    {
      id := nextTaskId;
      nextTaskId := nextTaskId + 1;
      tasks := tasks[id := true];
      readyQueue := readyQueue + [id];
      if old(ReadyOk(Now())) {
        DistinctConcat(old(readyQueue), [id]);
      }
    }

    // ----- handles -----

    /** The request waits at the end of the handle's queue; the other queue stays as it is. */
    method EnqueueSpawn(isLocal: bool) returns (id: TaskId)
      modifies this`nextTaskId, this`spawnQueue, this`spawnQueueLocal
      ensures id == old(nextTaskId) && nextTaskId == id + 1
      ensures spawnQueue == if isLocal then old(spawnQueue) else old(spawnQueue) + [id]
      ensures spawnQueueLocal == if isLocal then old(spawnQueueLocal) + [id] else old(spawnQueueLocal)
      ensures Now() == ActOn(old(Now()), SpawnVia(isLocal))
    {
      id := nextTaskId;
      nextTaskId := nextTaskId + 1;
      if isLocal {
        spawnQueueLocal := spawnQueueLocal + [id];
      } else {
        spawnQueue := spawnQueue + [id];
      }
    }

    method WithdrawSpawn(isLocal: bool, id: TaskId)
      modifies this`spawnQueue, this`spawnQueueLocal
      ensures spawnQueue == if isLocal then old(spawnQueue) else Remove(old(spawnQueue), id)
      ensures spawnQueueLocal == if isLocal then Remove(old(spawnQueueLocal), id) else old(spawnQueueLocal)
      ensures Now() == ActOn(old(Now()), CancelVia(isLocal, id))
    {
      if isLocal {
        spawnQueueLocal := Retain(spawnQueueLocal, id);
      } else {
        spawnQueue := Retain(spawnQueue, id);
      }
    }

    /**
     * Outside event processing the request just waits for the next poll, such as the one queued at
     * the installation.
     */
    method HandleSpawn(isLocal: bool, inContext: bool, scheduler: Scheduler<Message>, key: Uuid) returns (id: TaskId)
      modifies this`nextTaskId, this`spawnQueue, this`spawnQueueLocal, scheduler`deferredWakes
      ensures id == old(nextTaskId) && nextTaskId == id + 1
      ensures spawnQueue == if isLocal then old(spawnQueue) else old(spawnQueue) + [id]
      ensures spawnQueueLocal == if isLocal then old(spawnQueueLocal) + [id] else old(spawnQueueLocal)
      ensures scheduler.deferredWakes ==
              old(scheduler.deferredWakes) + if inContext then [Kernel.Deferred(0, key, ToRuntime(Poll))] else []
      ensures inContext ==> Here(scheduler, key) == R.Perform(old(Here(scheduler, key)), SpawnVia(isLocal))
      ensures !inContext ==> Now() == ActOn(old(Now()), SpawnVia(isLocal)) && scheduler.Now() == old(scheduler.Now())
    {
      id := EnqueueSpawn(isLocal);
      if inContext {
        scheduler.DeferWake(Kernel.Deferred(0, key, ToRuntime(Poll)));
      }
    }

    /** Keeps the requests of all other tasks, in order. */
    static method Retain(queue: seq<TaskId>, id: TaskId) returns (retained: seq<TaskId>)
      ensures retained == Remove(queue, id)
      ensures forall x :: x in retained <==> x in queue && x != id
    {
      retained := [];
      var rest := queue;
      while rest != []
        invariant retained + Remove(rest, id) == Remove(queue, id)
      {
        if rest[0] != id {
          assert retained + Remove(rest, id) == (retained + [rest[0]]) + Remove(rest[1..], id);
          retained := retained + [rest[0]];
        }
        rest := rest[1..];
      }
    }

    method HandleCancel(isLocal: bool, inContext: bool, id: TaskId, scheduler: Scheduler<Message>, key: Uuid)
      modifies this`spawnQueue, this`spawnQueueLocal, scheduler`deferredWakes
      ensures spawnQueue == if isLocal then old(spawnQueue) else Remove(old(spawnQueue), id)
      ensures spawnQueueLocal == if isLocal then Remove(old(spawnQueueLocal), id) else old(spawnQueueLocal)
      ensures scheduler.deferredWakes ==
              old(scheduler.deferredWakes) + if inContext then [Kernel.Deferred(0, key, ToRuntime(Cancel(id)))] else []
      ensures inContext ==> Here(scheduler, key) == R.Perform(old(Here(scheduler, key)), CancelVia(isLocal, id))
      ensures !inContext ==>
              Now() == ActOn(old(Now()), CancelVia(isLocal, id)) && scheduler.Now() == old(scheduler.Now())
    {
      WithdrawSpawn(isLocal, id);
      if inContext {
        scheduler.DeferWake(Kernel.Deferred(0, key, ToRuntime(Cancel(id))));
      }
    }

    /** The spawn-queue side of code that runs outside the runtime. */
    method ActOnQueues(acts: seq<Act>, ghost s: Sys)
      requires Now() == s.rt
      modifies this`nextTaskId, this`spawnQueue, this`spawnQueueLocal
      ensures Now() == R.PerformAll(s, acts).rt
    {
      var i := 0;
      ghost var t := s;
      while i < |acts|
        invariant 0 <= i <= |acts|
        invariant Now() == t.rt && R.PerformAll(t, acts[i..]) == R.PerformAll(s, acts)
      {
        assert acts[i..][1..] == acts[i + 1..];
        t := R.Perform(t, acts[i]);
        match acts[i] {
          case Sched(_) =>
          case SpawnVia(isLocal) => var _ := EnqueueSpawn(isLocal);
          case CancelVia(isLocal, id) => WithdrawSpawn(isLocal, id);
        }
        i := i + 1;
      }
    }

    // ----- polling -----

    /** What the code inside a poll does, act by act. */
    method PerformAll(acts: seq<Act>, scheduler: Scheduler<Message>, key: Uuid)
      modifies this, scheduler
      ensures Here(scheduler, key) == R.PerformAll(old(Here(scheduler, key)), acts)
      ensures runtimeKey == old(runtimeKey)
    {
      var i := 0;
      while i < |acts|
        invariant 0 <= i <= |acts| && runtimeKey == old(runtimeKey)
        invariant R.PerformAll(Here(scheduler, key), acts[i..]) == R.PerformAll(old(Here(scheduler, key)), acts)
      {
        assert acts[i..][1..] == acts[i + 1..];
        match acts[i] {
          case Sched(c) => scheduler.Perform(c);
          case SpawnVia(isLocal) => var _ := HandleSpawn(isLocal, true, scheduler, key);
          case CancelVia(isLocal, id) => HandleCancel(isLocal, true, id, scheduler, key);
        }
        i := i + 1;
      }
    }

    /** Polls one future; None when the runtime has no key yet or the task is gone. */
    method PollTask(id: TaskId, scheduler: Scheduler<Message>, polls: Futures) returns (ready: Option<bool>)
      modifies this, scheduler
      ensures runtimeKey == old(runtimeKey)
      ensures ready.None? <==> old(runtimeKey).None? || id !in old(tasks)
      ensures ready.None? ==> Now() == old(Now()) && scheduler.Now() == old(scheduler.Now())
      ensures ready.Some? ==> ready.value == polls(id).ready
      ensures ready.Some? ==>
        var key := old(runtimeKey).value;
        Here(scheduler, key) == R.PerformAll(old(Sys(key, scheduler.Now(), Now())), polls(id).acts)
    {
      if runtimeKey.None? || id !in tasks {
        return None;
      }
      PerformAll(polls(id).acts, scheduler, runtimeKey.value);
      ready := Some(polls(id).ready);
    }

    method InstallSpawns()
      modifies this`tasks, this`readyQueue, this`spawnQueue
      ensures spawnQueue == [] && Install(Now()) == Install(old(Now()))
      ensures readyQueue == old(readyQueue) + old(spawnQueue)
    {
      while spawnQueue != []
        invariant Install(Now()) == Install(old(Now()))
        invariant readyQueue + spawnQueue == old(readyQueue) + old(spawnQueue)
        decreases |spawnQueue|
      {
        InstallOneMore(Now());
        var id := spawnQueue[0];
        assert readyQueue + spawnQueue == (readyQueue + [id]) + spawnQueue[1..];
        spawnQueue := spawnQueue[1..];
        tasks, readyQueue := tasks[id := true], readyQueue + [id];
      }
    }

    method InstallLocalSpawns()
      requires spawnQueue == []
      modifies this`tasks, this`readyQueue, this`spawnQueueLocal
      ensures Now() == Install(old(Now()))
      ensures spawnQueueLocal == [] && readyQueue == old(readyQueue) + old(spawnQueueLocal)
    {
      while spawnQueueLocal != []
        invariant Install(Now()) == Install(old(Now()))
        invariant readyQueue + spawnQueueLocal == old(readyQueue) + old(spawnQueueLocal)
        decreases |spawnQueueLocal|
      {
        InstallOneMoreLocal(Now());
        var id := spawnQueueLocal[0];
        assert readyQueue + spawnQueueLocal == (readyQueue + [id]) + spawnQueueLocal[1..];
        spawnQueueLocal := spawnQueueLocal[1..];
        tasks, readyQueue := tasks[id := true], readyQueue + [id];
      }
      InstallNothing(Now());
    }

    /** Takes the whole ready queue. */
    method TakeReady() returns (pollSet: seq<TaskId>)
      modifies this`readyQueue
      ensures pollSet == old(readyQueue) && readyQueue == []
    {
      var toPoll := |readyQueue|;
      pollSet := [];
      for i := 0 to toPoll
        invariant |pollSet| == i && pollSet + readyQueue == old(readyQueue)
      {
        assert pollSet + readyQueue == (pollSet + [readyQueue[0]]) + readyQueue[1..];
        pollSet, readyQueue := pollSet + [readyQueue[0]], readyQueue[1..];
      }
    }

    /** One task of the poll set. */
    method PollNext(id: TaskId, scheduler: Scheduler<Message>, key: Uuid, polls: Futures) returns (polled: bool)
      requires runtimeKey == Some(key)
      modifies this, scheduler
      ensures Here(scheduler, key) == PollOne(old(Here(scheduler, key)), id, polls)
      ensures polled <==> id in old(tasks)
      ensures runtimeKey == old(runtimeKey)
    {
      if id !in tasks {
        return false;
      }
      tasks := tasks[id := false];
      var ready := PollTask(id, scheduler, polls);
      if ready == Some(true) {
        tasks := tasks - {id};
      }
      polled := true;
    }

    /** Polls the set in the policy's order. */
    method PollSnapshot(snapshot: seq<TaskId>, scheduler: Scheduler<Message>, key: Uuid, polls: Futures)
      returns (polled: seq<TaskId>)
      requires runtimeKey == Some(key)
      modifies this, scheduler, readyTaskPolicy
      ensures (Here(scheduler, key), readyTaskPolicy.state, polled)
           == PollAll(old(Here(scheduler, key)), old(readyTaskPolicy.state), readyTaskPolicy.answer, snapshot, polls)
      ensures runtimeKey == old(runtimeKey)
    {
      var pollSet := snapshot;
      polled := [];
      ghost var whole := PollAll(Here(scheduler, key), readyTaskPolicy.state, readyTaskPolicy.answer, pollSet, polls);
      PollingStart(Here(scheduler, key), readyTaskPolicy.state, readyTaskPolicy.answer, pollSet, polls);
      while pollSet != []
        invariant runtimeKey == Some(key)
        invariant Polling(Here(scheduler, key), readyTaskPolicy.state, readyTaskPolicy.answer, pollSet, polls, polled,
                  whole)
        decreases |pollSet|
      {
        ghost var s, ps := Here(scheduler, key), readyTaskPolicy.state;
        var chosen := readyTaskPolicy.Choose(scheduler.clock, pollSet);
        chosen := Clamp(chosen, |pollSet|);
        var id := pollSet[chosen];
        PollingStep(s, ps, readyTaskPolicy.answer, pollSet, polls, polled, whole);
        pollSet := SwapRemove(pollSet, chosen);
        var done := PollNext(id, scheduler, key, polls);
        if done {
          polled := polled + [id];
        }
      }
      assert polled + [] == polled;
    }

    /** Installs the spawn requests, then polls a snapshot of the ready queue. */
    method PollReadyTasks(scheduler: Scheduler<Message>, key: Uuid, polls: Futures) returns (polled: seq<TaskId>)
      requires runtimeKey == Some(key)
      modifies this, scheduler, readyTaskPolicy
      ensures (Here(scheduler, key), readyTaskPolicy.state, polled)
           == PollReady(old(Here(scheduler, key)), old(readyTaskPolicy.state), readyTaskPolicy.answer, polls)
      ensures runtimeKey == old(runtimeKey)
    {
      InstallSpawns();
      InstallLocalSpawns();
      var pollSet := TakeReady();
      assert Now() == Install(old(Now())).(readyQueue := []);
      polled := PollSnapshot(pollSet, scheduler, key, polls);
    }

    method WakeTask(id: TaskId)
      modifies this`tasks, this`readyQueue
      ensures Now() == R.WakeTask(old(Now()), id)
      ensures if id in old(tasks) && !old(tasks)[id]
              then tasks == old(tasks)[id := true] && readyQueue == old(readyQueue) + [id]
              else tasks == old(tasks) && readyQueue == old(readyQueue)
    {
      if id !in tasks || tasks[id] {
        return;
      }
      tasks := tasks[id := true];
      readyQueue := readyQueue + [id];
    }

    // ----- timers -----

    method FirstDeadline() returns (first: Option<Time>)
      ensures first == Earliest(timers)
    {
      if timers == map[] {
        return None;
      }
      LeastExists(timers.Keys);
      var t: Time :| t in timers.Keys && IsLeast(t, timers.Keys);
      first := Some(t);
    }

    method ScheduleNextTimerTick(scheduler: Scheduler<Message>, selfId: Uuid)
      modifies this`nextTimerDeadline, scheduler`nextEventId, scheduler`events
      ensures Here(scheduler, selfId) == ScheduleTick(old(Here(scheduler, selfId)))
      ensures nextTimerDeadline.None? <==> timers == map[]
      ensures nextTimerDeadline.Some? ==>
              nextTimerDeadline.value in timers && forall d <- timers :: nextTimerDeadline.value <= d
      ensures nextTimerDeadline == old(nextTimerDeadline) || nextTimerDeadline.None? ==>
              scheduler.events == old(scheduler.events)
      ensures nextTimerDeadline != old(nextTimerDeadline) && nextTimerDeadline.Some? ==>
              var d, now := nextTimerDeadline.value, scheduler.clock;
              scheduler.events == old(scheduler.events) + {Kernel.ComponentEvent(old(scheduler.nextEventId) + 1,
                if d < now then now else d, selfId, ToRuntime(TimerTick))}
    {
      var now := scheduler.clock;
      var nextDeadline := FirstDeadline();
      if nextDeadline == nextTimerDeadline {
        return;
      }
      nextTimerDeadline := nextDeadline;
      if nextDeadline.Some? {
        var delay := if nextDeadline.value <= now then 0 else nextDeadline.value - now;
        scheduler.Schedule(delay, selfId, ToRuntime(TimerTick));
      }
    }

    method RegisterTimer(id: TaskId, deadline: Time, scheduler: Scheduler<Message>, selfId: Uuid)
      modifies this, scheduler
      ensures Here(scheduler, selfId) == Register(old(Here(scheduler, selfId)), id, deadline)
      ensures id !in tasks ==> timers == old(timers)
      ensures id in tasks ==>
              timers == old(timers)[deadline := (if deadline in old(timers) then old(timers)[deadline] else []) + [id]]
      ensures runtimeKey == old(runtimeKey) && tasks == old(tasks) && readyQueue == old(readyQueue)
    {
      if id !in tasks {
        return;
      }
      timers := timers[deadline := (if deadline in timers then timers[deadline] else []) + [id]];
      ScheduleNextTimerTick(scheduler, selfId);
    }

    method CancelTimer(id: TaskId, deadline: Time, scheduler: Scheduler<Message>, selfId: Uuid)
      modifies this, scheduler
      ensures Here(scheduler, selfId) == Unregister(old(Here(scheduler, selfId)), id, deadline)
      ensures forall d :: d != deadline ==>
              (d in timers <==> d in old(timers)) && (d in timers ==> timers[d] == old(timers)[d])
      ensures deadline in timers ==>
              deadline in old(timers) && timers[deadline] == Remove(old(timers)[deadline], id) != []
      ensures deadline in old(timers) && deadline !in timers ==> Remove(old(timers)[deadline], id) == []
      ensures runtimeKey == old(runtimeKey) && tasks == old(tasks) && readyQueue == old(readyQueue)
    {
      if deadline in timers {
        var list := Retain(timers[deadline], id);
        timers := timers[deadline := list];
        if list == [] {
          timers := timers - {deadline};
          assert timers == old(timers) - {deadline};
          ScheduleNextTimerTick(scheduler, selfId);
        }
      }
    }

    /** Wakes the tasks of every deadline that has come, in deadline order. */
    method WakeDueTasks(now: Time)
      modifies this`tasks, this`readyQueue, this`timers
      ensures Now() == WakeDue(old(Now()), now)
    {
      while true
        invariant WakeDue(Now(), now) == WakeDue(old(Now()), now)
        decreases |timers|
      {
        var first := FirstDeadline();
        if first.None? || first.value > now {
          break;
        }
        var due := timers[first.value];
        timers := timers - {first.value};
        ghost var start := Now();
        for i := 0 to |due|
          invariant timers == start.timers
          invariant WakeAll(Now(), due[i..]) == WakeAll(start, due)
          invariant nextTimerDeadline == start.nextTimerDeadline && nextTaskId == start.nextTaskId
          invariant spawnQueue == start.spawnQueue && spawnQueueLocal == start.spawnQueueLocal
        {
          assert due[i..][1..] == due[i + 1..];
          WakeTask(due[i]);
        }
      }
    }

    method TickTimers(scheduler: Scheduler<Message>, selfId: Uuid)
      modifies this, scheduler
      ensures Here(scheduler, selfId)
           == ScheduleTick(old(Here(scheduler, selfId)).(rt :=
             WakeDue(old(Now()).(nextTimerDeadline := None), old(scheduler.clock))))
      ensures runtimeKey == old(runtimeKey)
    {
      nextTimerDeadline := None;
      WakeDueTasks(scheduler.clock);
      ScheduleNextTimerTick(scheduler, selfId);
    }

    method HandleTimerTick(scheduler: Scheduler<Message>, selfId: Uuid, polls: Futures) returns (polled: seq<TaskId>)
      requires runtimeKey == Some(selfId)
      modifies this, scheduler, readyTaskPolicy
      ensures (Here(scheduler, selfId), readyTaskPolicy.state, polled)
           == Handled(old(Here(scheduler, selfId)), TimerTick, old(readyTaskPolicy.state), readyTaskPolicy.answer,
             polls)
      ensures runtimeKey == old(runtimeKey)
    {
      TickTimers(scheduler, selfId);
      polled := PollReadyTasks(scheduler, selfId, polls);
    }

    /** Takes the task out of every timer list, then removes the deadlines left without tasks. */
    method DropFromTimers(id: TaskId)
      modifies this`timers
      ensures timers == DropTimers(old(Now()), id).timers
    {
      var todo := timers.Keys;
      var emptyDeadlines: set<Time> := {};
      while todo != {}
        invariant Sifted(old(timers), timers, todo, emptyDeadlines, id)
        decreases |todo|
      {
        var d :| d in todo;
        var list := Retain(timers[d], id);
        SiftStep(old(timers), timers, todo, emptyDeadlines, id, d);
        timers := timers[d := list];
        if list == [] {
          emptyDeadlines := emptyDeadlines + {d};
        }
        todo := todo - {d};
      }
      SiftDone(old(timers), timers, emptyDeadlines, id);
      timers := timers - emptyDeadlines;
    }

    /** Takes the task out of the table, which drops its future: its destructors do `acts`. */
    method DropTask(id: TaskId, acts: seq<Act>, scheduler: Scheduler<Message>, selfId: Uuid)
      modifies this, scheduler
      ensures Here(scheduler, selfId) == DropFuture(old(Here(scheduler, selfId)), id, acts)
      ensures runtimeKey == old(runtimeKey)
    {
      var found := id in tasks;
      tasks := tasks - {id};
      if found {
        PerformAll(acts, scheduler, selfId);
      }
    }

    method CancelTask(id: TaskId, acts: seq<Act>, scheduler: Scheduler<Message>, selfId: Uuid)
      modifies this, scheduler
      ensures Here(scheduler, selfId) == R.CancelTask(old(Here(scheduler, selfId)), id, acts)
      ensures tasks == old(tasks) - {id} && forall d <- timers :: id !in timers[d]
      ensures runtimeKey == old(runtimeKey) && readyQueue == old(readyQueue)
    {
      DropTask(id, acts, scheduler, selfId);
      DropFromTimers(id);
      ScheduleNextTimerTick(scheduler, selfId);
    }

    // ----- events -----

    /** Tasks in the ready queue get a poll for the current instant. */
    method PollAgain(scheduler: Scheduler<Message>, selfId: Uuid)
      modifies scheduler`nextEventId, scheduler`events
      ensures scheduler.Now() == if readyQueue == [] then old(scheduler.Now())
                                 else Kernel.PushComponent(old(scheduler.Now()), 0, selfId, ToRuntime(Poll))
      ensures readyQueue != [] ==> exists e <- scheduler.events :: IsEvent(e, selfId, Poll) && e.time == scheduler.clock
    {
      if readyQueue != [] {
        scheduler.Schedule(0, selfId, ToRuntime(Poll));
        assert IsEvent(Kernel.ComponentEvent(scheduler.nextEventId, scheduler.clock, selfId, ToRuntime(Poll)), selfId,
            Poll);
      }
    }

    method ProcessEvent(selfId: Uuid, event: RuntimeEvent, scheduler: Scheduler<Message>, polls: Futures)
      returns (polled: seq<TaskId>)
      requires runtimeKey.Some? ==> runtimeKey.value == selfId
      modifies this, scheduler, readyTaskPolicy
      ensures (Here(scheduler, selfId), readyTaskPolicy.state, polled)
           == R.ProcessEvent(old(Here(scheduler, selfId)), event, old(readyTaskPolicy.state), readyTaskPolicy.answer,
             polls)
      ensures runtimeKey == Some(selfId)
      ensures readyQueue != [] ==> exists e <- scheduler.events :: IsEvent(e, selfId, Poll) && e.time == scheduler.clock
    {
      if runtimeKey.None? {
        runtimeKey := Some(selfId);
      }
      polled := [];
      match event {
        case Poll => polled := PollReadyTasks(scheduler, selfId, polls);
        case Wake(id) =>
          WakeTask(id);
          polled := PollReadyTasks(scheduler, selfId, polls);
        case Cancel(id) => CancelTask(id, polls(id).acts, scheduler, selfId);
        case RegisterTimer(id, deadline) => RegisterTimer(id, deadline, scheduler, selfId);
        case CancelTimer(id, deadline) => CancelTimer(id, deadline, scheduler, selfId);
        case TimerTick => polled := HandleTimerTick(scheduler, selfId, polls);
      }
      PollAgain(scheduler, selfId);
    }
  }

  /** Installing the first waiting request by hand does not change what installing all of them gives. */
  lemma {:induction false} InstallOneMore(rt: Rt)
    requires rt.spawnQueue != []
    ensures var id := rt.spawnQueue[0];
      Install(rt.(tasks := rt.tasks[id := true], readyQueue := rt.readyQueue + [id], spawnQueue := rt.spawnQueue[1..]))
        == Install(rt)
  {
    var rest := rt.spawnQueue[1..] + rt.spawnQueueLocal;
    assert rt.spawnQueue + rt.spawnQueueLocal == [rt.spawnQueue[0]] + rest;
    MarkOneMore(rt, rt.spawnQueue[0], rest);
  }

  lemma {:induction false} InstallOneMoreLocal(rt: Rt)
    requires rt.spawnQueue == [] && rt.spawnQueueLocal != []
    ensures var id := rt.spawnQueueLocal[0];
      Install(rt.(tasks := rt.tasks[id := true], readyQueue := rt.readyQueue + [id],
        spawnQueueLocal := rt.spawnQueueLocal[1..])) == Install(rt)
  {
    var rest := rt.spawnQueueLocal[1..];
    assert rt.spawnQueue + rt.spawnQueueLocal == [rt.spawnQueueLocal[0]] + rest;
    assert rt.spawnQueue + rest == rest;
    MarkOneMore(rt, rt.spawnQueueLocal[0], rest);
  }

  lemma {:induction false} MarkOneMore(rt: Rt, id: TaskId, rest: seq<TaskId>)
    ensures rt.tasks[id := true] + (map x | x in rest :: true) == rt.tasks + (map x | x in [id] + rest :: true)
    ensures rt.readyQueue + ([id] + rest) == (rt.readyQueue + [id]) + rest
  {}

  lemma {:induction false} InstallNothing(rt: Rt)
    requires rt.spawnQueue == [] && rt.spawnQueueLocal == []
    ensures Install(rt) == rt
  {
    assert rt.tasks + (map x | x in rt.spawnQueue + rt.spawnQueueLocal :: true) == rt.tasks;
    assert rt.readyQueue + (rt.spawnQueue + rt.spawnQueueLocal) == rt.readyQueue;
  }

  /** `now` is `was` with one task taken out of every list not still to do; the lists this emptied are known. */
  ghost predicate Sifted(was: Timers, now: Timers, todo: set<Time>, empties: set<Time>, id: TaskId) {
    && todo <= now.Keys == was.Keys
    && (forall d <- now :: now[d] == if d in todo then was[d] else Remove(was[d], id))
    && (forall d <- empties :: d in now)
    && (forall d <- now :: d in empties <==> d !in todo && now[d] == [])
  }

  lemma {:induction false} SiftStep(was: Timers, now: Timers, todo: set<Time>, empties: set<Time>, id: TaskId, d: Time)
    requires Sifted(was, now, todo, empties, id) && d in todo
    ensures var list := Remove(now[d], id);
      Sifted(was, now[d := list], todo - {d}, if list == [] then empties + {d} else empties, id)
  {}

  lemma {:induction false} SiftDone(was: Timers, now: Timers, empties: set<Time>, id: TaskId)
    requires Sifted(was, now, {}, empties, id)
    ensures now - empties == map d | d in was && Remove(was[d], id) != [] :: Remove(was[d], id)
  {
    var r := map d | d in was && Remove(was[d], id) != [] :: Remove(was[d], id);
    forall d: Time ensures d in r.Keys <==> d in (now - empties).Keys {
      if d in now.Keys {}
    }
  }

  /** What is still to be polled completes what has been polled to the whole round. */
  ghost predicate Polling<S>(
      s: Sys, ps: S, answer: ReadyAnswer<S>, left: seq<TaskId>, polls: Futures, polled: seq<TaskId>,
      whole: (Sys, S, seq<TaskId>))
  {
    var (r, psEnd, rest) := PollAll(s, ps, answer, left, polls);
    (r, psEnd, polled + rest) == whole
  }

  lemma {:induction false} PollingStart<S>(s: Sys, ps: S, answer: ReadyAnswer<S>, left: seq<TaskId>, polls: Futures)
    ensures Polling(s, ps, answer, left, polls, [], PollAll(s, ps, answer, left, polls))
  {
    var rest := PollAll(s, ps, answer, left, polls).2;
    assert [] + rest == rest;
  }

  lemma {:induction false} PollingStep<S>(
      s: Sys, ps: S, answer: ReadyAnswer<S>, left: seq<TaskId>, polls: Futures, polled: seq<TaskId>,
      whole: (Sys, S, seq<TaskId>))
    requires left != [] && Polling(s, ps, answer, left, polls, polled, whole)
    ensures var (ps', pick) := answer(ps, s.k.clock, left); var i := Clamp(pick, |left|); var id := left[i];
      Polling(PollOne(s, id, polls), ps', answer, SwapRemove(left, i), polls,
        if id in s.rt.tasks then polled + [id] else polled, whole)
  {
    var (ps', pick) := answer(ps, s.k.clock, left);
    var i := Clamp(pick, |left|);
    var rest := PollAll(PollOne(s, left[i], polls), ps', answer, SwapRemove(left, i), polls).2;
    assert polled + ([left[i]] + rest) == (polled + [left[i]]) + rest;
    assert polled + ([] + rest) == polled + rest;
  }
}
