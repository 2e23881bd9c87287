/** Ready queue, polling and spawning: every ready task is polled exactly once, and no spawn is lost. */
module RuntimePolling {
  import opened SimTime
  import opened Options
  import opened Vectors
  import opened Runtime

  /**
   * The ready queue has no duplicates, a live task is marked queued exactly when it is in it, and
   * spawn requests are new.
   */
  ghost predicate ReadyOk(rt: Rt) {
    && Distinct(rt.readyQueue)
    && (forall id <- rt.tasks :: rt.tasks[id] <==> id in rt.readyQueue)
    && KnownIds(rt)
    && SpawnsOk(rt)
  }

  ghost predicate KnownIds(rt: Rt) {
    && (forall id <- rt.tasks :: id < rt.nextTaskId)
    && (forall id <- rt.readyQueue :: id < rt.nextTaskId)
  }

  ghost predicate SpawnsOk(rt: Rt) {
    && Distinct(rt.spawnQueue) && Distinct(rt.spawnQueueLocal)
    && (forall id <- rt.spawnQueue :: id !in rt.spawnQueueLocal)
    && (forall id <- rt.spawnQueue :: id < rt.nextTaskId && id !in rt.tasks && id !in rt.readyQueue)
    && (forall id <- rt.spawnQueueLocal :: id < rt.nextTaskId && id !in rt.tasks && id !in rt.readyQueue)
  }

  lemma {:induction false} DistinctConcat(a: seq<TaskId>, b: seq<TaskId>)
    requires Distinct(a) && Distinct(b) && forall x <- a :: x !in b
    ensures Distinct(a + b)
  {
    var c := a + b;
    forall i, j | 0 <= i < j < |c| ensures c[i] != c[j] {
      if i < |a| <= j {
        assert c[i] in a && c[j] in b;
      }
    }
  }

  lemma {:induction false} RemoveDistinct(q: seq<TaskId>, id: TaskId)
    requires Distinct(q)
    ensures Distinct(Remove(q, id))
  {
    if q != [] {
      assert q[0] !in q[1..];
      RemoveDistinct(q[1..], id);
      DistinctConcat([q[0]], Remove(q[1..], id));
    }
  }

  /** Withdrawing a request keeps all others, in order. */
  lemma {:induction false} RemoveKeepsOrder(a: seq<TaskId>, b: seq<TaskId>, id: TaskId)
    ensures Remove(a + b, id) == Remove(a, id) + Remove(b, id)
    ensures id !in a ==> Remove(a, id) == a
    ensures Remove([id], id) == []
    decreases |a|
  {
    if a == [] {
      assert a + b == b;
    } else {
      TailOfConcat(a, b);
      RemoveKeepsOrder(a[1..], b, id);
    }
    assert [id][1..] == [];
  }

  lemma {:induction false} PerformReady(s: Sys, a: Act)
    requires KnownIds(s.rt) && SpawnsOk(s.rt)
    ensures var r := Perform(s, a).rt;
            KnownIds(r) && SpawnsOk(r) && r.tasks == s.rt.tasks && r.readyQueue == s.rt.readyQueue
  {
    match a
    case Sched(_) =>
    case SpawnVia(_) =>
      DistinctConcat(s.rt.spawnQueue, [s.rt.nextTaskId]);
      DistinctConcat(s.rt.spawnQueueLocal, [s.rt.nextTaskId]);
    case CancelVia(_, id) =>
      RemoveDistinct(s.rt.spawnQueue, id);
      RemoveDistinct(s.rt.spawnQueueLocal, id);
  }

  lemma {:induction false} PerformAllReady(s: Sys, acts: seq<Act>)
    requires KnownIds(s.rt) && SpawnsOk(s.rt)
    ensures var r := PerformAll(s, acts).rt; KnownIds(r) && SpawnsOk(r)
    decreases |acts|
  {
    if acts != [] {
      PerformReady(s, acts[0]);
      PerformAllReady(Perform(s, acts[0]), acts[1..]);
    }
  }

  /** Draining the spawn queues installs each request exactly once, as a live and queued task. */
  lemma {:induction false} InstallOnce(rt: Rt)
    requires ReadyOk(rt)
    ensures var r := Install(rt);
      && ReadyOk(r) && r.spawnQueue == [] && r.spawnQueueLocal == []
      && (forall id :: id in r.tasks <==> id in rt.tasks || id in rt.spawnQueue || id in rt.spawnQueueLocal)
      && (forall id <- rt.spawnQueue + rt.spawnQueueLocal :: id !in rt.tasks && id in r.tasks && id in r.readyQueue)
      && r.readyQueue == rt.readyQueue + rt.spawnQueue + rt.spawnQueueLocal
  {
    var ids := rt.spawnQueue + rt.spawnQueueLocal;
    DistinctConcat(rt.spawnQueue, rt.spawnQueueLocal);
    DistinctConcat(rt.readyQueue, ids);
  }

  lemma {:induction false} SwapRemoveDistinct(v: seq<TaskId>, i: nat)
    requires Distinct(v) && i < |v|
    ensures Distinct(SwapRemove(v, i)) && forall x :: x in SwapRemove(v, i) <==> x in v && x != v[i]
  {
    var r := SwapRemove(v, i);
    forall x | x in v && x != v[i] ensures x in r {
      var j :| 0 <= j < |v| && v[j] == x;
      assert r[if j == |v| - 1 then i else j] == x;
    }
    forall x <- r ensures x in v && x != v[i] {
      var k :| 0 <= k < |r| && r[k] == x;
      assert v[if k == i then |v| - 1 else k] == x;
    }
  }

  /** While a snapshot is polled: the ready queue is empty and exactly the tasks still to be polled are marked. */
  ghost predicate MidPoll(rt: Rt, left: seq<TaskId>) {
    && rt.readyQueue == [] && Distinct(left)
    && (forall id <- rt.tasks :: rt.tasks[id] <==> id in left)
    && (forall id <- left :: id < rt.nextTaskId && id !in rt.spawnQueue && id !in rt.spawnQueueLocal)
    && KnownIds(rt) && SpawnsOk(rt)
  }

  lemma {:induction false} PollOneMid(s: Sys, left: seq<TaskId>, i: nat, polls: Futures)
    requires MidPoll(s.rt, left) && i < |left|
    ensures MidPoll(PollOne(s, left[i], polls).rt, SwapRemove(left, i))
  {
    var id := left[i];
    SwapRemoveDistinct(left, i);
    if id in s.rt.tasks {
      var s1 := s.(rt := s.rt.(tasks := s.rt.tasks[id := false]));
      PerformAllReady(s1, polls(id).acts);
      SpawnsAvoid(s1, polls(id).acts, left);
    }
  }

  /** Acts only queue ids that were never handed out before. */
  lemma {:induction false} SpawnsAvoid(s: Sys, acts: seq<Act>, known: seq<TaskId>)
    requires forall id <- known :: id < s.rt.nextTaskId && id !in s.rt.spawnQueue && id !in s.rt.spawnQueueLocal
    ensures var r := PerformAll(s, acts).rt;
      forall id <- known :: id < r.nextTaskId && id !in r.spawnQueue && id !in r.spawnQueueLocal
    decreases |acts|
  {
    if acts != [] {
      SpawnsAvoid(Perform(s, acts[0]), acts[1..], known);
    }
  }

  /**
   * For every ready-task policy: the polled tasks are the live part of the snapshot, each exactly
   * once; a polled task survives exactly when its future is still pending; nothing is left queued.
   */
  lemma {:induction false} PollAllOnce<S>(s: Sys, ps: S, answer: ReadyAnswer<S>, left: seq<TaskId>, polls: Futures)
    requires MidPoll(s.rt, left)
    ensures var (r, _, polled) := PollAll(s, ps, answer, left, polls);
      && MidPoll(r.rt, [])
      && Distinct(polled)
      && (forall id :: id in polled <==> id in left && id in s.rt.tasks)
      && (forall id :: id in r.rt.tasks <==> id in s.rt.tasks && (id in polled ==> !polls(id).ready))
      && r.rt.timers == s.rt.timers && r.rt.nextTimerDeadline == s.rt.nextTimerDeadline
      && r.k.clock == s.k.clock && r.key == s.key
    decreases |left|
  {
    if left != [] {
      var (ps', pick) := answer(ps, s.k.clock, left);
      var i := Clamp(pick, |left|);
      SwapRemoveDistinct(left, i);
      PollOneMid(s, left, i, polls);
      PollAllOnce(PollOne(s, left[i], polls), ps', answer, SwapRemove(left, i), polls);
    }
  }

  /** A spawn request that has not been installed yet. */
  predicate Fresh(rt: Rt, id: TaskId) {
    id in rt.spawnQueue || id in rt.spawnQueueLocal
  }

  /** What one polling round does to the task table and the ready queue. */
  ghost predicate Round(rt: Rt, r: Rt, polled: seq<TaskId>, polls: Futures) {
    && ReadyOk(r) && r.readyQueue == []
    && Distinct(polled)
    && (forall id :: id in polled <==> Fresh(rt, id) || (id in rt.tasks && rt.tasks[id]))
    && (forall id :: id in r.tasks <==> (id in rt.tasks || Fresh(rt, id)) && (id in polled ==> !polls(id).ready))
  }

  lemma {:induction false} PollReadyOnce<S>(s: Sys, ps: S, answer: ReadyAnswer<S>, polls: Futures)
    requires ReadyOk(s.rt)
    ensures var (r, _, polled) := PollReady(s, ps, answer, polls);
      && Round(s.rt, r.rt, polled, polls)
      && r.rt.timers == s.rt.timers && r.rt.nextTimerDeadline == s.rt.nextTimerDeadline
  {
    InstallOnce(s.rt);
    var start := Install(s.rt);
    PollAllOnce(s.(rt := start.(readyQueue := [])), ps, answer, start.readyQueue, polls);
  }

  // ----- waking -----

  lemma {:induction false} WakeAllReady(rt: Rt, ids: seq<TaskId>)
    requires ReadyOk(rt)
    ensures var r := WakeAll(rt, ids);
      && ReadyOk(r)
      && (forall id <- r.tasks :: r.tasks[id] <==> rt.tasks[id] || id in ids)
      && SameSpawns(rt, r)
    decreases |ids|
  {
    if ids != [] {
      WakeAllReady(WakeTask(rt, ids[0]), ids[1..]);
    }
  }

  ghost predicate SameSpawns(rt: Rt, r: Rt) {
    r.spawnQueue == rt.spawnQueue && r.spawnQueueLocal == rt.spawnQueueLocal && r.nextTaskId == rt.nextTaskId
  }

  /** The task has a timer whose deadline has come. */
  ghost predicate Due(timers: Timers, now: Time, id: TaskId) {
    exists d <- timers :: d <= now && id in timers[d]
  }

  lemma {:induction false} WakeDueReady(rt: Rt, now: Time)
    requires ReadyOk(rt)
    ensures var r := WakeDue(rt, now);
      && ReadyOk(r)
      && (forall id <- r.tasks :: r.tasks[id] <==> rt.tasks[id] || Due(rt.timers, now, id))
      && SameSpawns(rt, r)
    decreases |rt.timers|
  {
    var first := Earliest(rt.timers);
    if first.Some? && first.value <= now {
      var rt1 := rt.(timers := rt.timers - {first.value});
      var woken := WakeAll(rt1, rt.timers[first.value]);
      WakeAllReady(rt1, rt.timers[first.value]);
      WakeDueReady(woken, now);
      forall id: TaskId
        ensures Due(rt.timers, now, id) <==> id in rt.timers[first.value] || Due(woken.timers, now, id)
      {
        if Due(rt.timers, now, id) && id !in rt.timers[first.value] {
          var d :| d in rt.timers && d <= now && id in rt.timers[d];
          assert d in woken.timers && woken.timers[d] == rt.timers[d];
        }
      }
    }
  }

  /** The least deadline that the task is registered for. */
  ghost predicate LeastDue(timers: Timers, id: TaskId, d: Time) {
    d in timers && id in timers[d] && forall other <- timers :: id in timers[other] ==> d <= other
  }

  ghost predicate Precedes(q: seq<TaskId>, x: TaskId, y: TaskId) {
    exists i, j :: 0 <= i < j < |q| && q[i] == x && q[j] == y
  }

  lemma {:induction false} WakeAllAppends(rt: Rt, ids: seq<TaskId>)
    ensures rt.readyQueue <= WakeAll(rt, ids).readyQueue
    decreases |ids|
  {
    if ids != [] {
      WakeAllAppends(WakeTask(rt, ids[0]), ids[1..]);
    }
  }

  lemma {:induction false} WakeDueAppends(rt: Rt, now: Time)
    ensures rt.readyQueue <= WakeDue(rt, now).readyQueue
    decreases |rt.timers|
  {
    var first := Earliest(rt.timers);
    if first.Some? && first.value <= now {
      var rt1 := rt.(timers := rt.timers - {first.value});
      WakeAllAppends(rt1, rt.timers[first.value]);
      WakeDueAppends(WakeAll(rt1, rt.timers[first.value]), now);
    }
  }

  lemma {:induction false} InPrefixPrecedes(p: seq<TaskId>, q: seq<TaskId>, x: TaskId, y: TaskId)
    requires p <= q && x in p && y !in p && y in q
    ensures Precedes(q, x, y)
  {
    var i :| 0 <= i < |p| && p[i] == x;
    var j :| 0 <= j < |q| && q[j] == y;
    assert forall k :: 0 <= k < |p| ==> q[k] == p[k] && p[k] in p;
    assert i < |p| <= j;
  }

  /** A task already queued stays ahead of one that is woken later. */
  lemma {:induction false} LaterIsLast(rt: Rt, now: Time, x: TaskId, y: TaskId, dy: Time)
    requires ReadyOk(rt) && x in rt.tasks && rt.tasks[x] && y in rt.tasks && !rt.tasks[y]
    requires dy in rt.timers && y in rt.timers[dy] && dy <= now
    ensures Precedes(WakeDue(rt, now).readyQueue, x, y)
  {
    WakeDueReady(rt, now);
    WakeDueAppends(rt, now);
    assert Due(rt.timers, now, y) && y in WakeDue(rt, now).tasks.Keys;
    InPrefixPrecedes(rt.readyQueue, WakeDue(rt, now).readyQueue, x, y);
  }

  /** The tasks that a tick wakes join the ready queue in the order of their deadlines. */
  lemma {:induction false} WakesInOrder(rt: Rt, now: Time, x: TaskId, y: TaskId, dx: Time, dy: Time)
    requires ReadyOk(rt) && x in rt.tasks && !rt.tasks[x] && y in rt.tasks && !rt.tasks[y]
    requires LeastDue(rt.timers, x, dx) && LeastDue(rt.timers, y, dy) && dx < dy <= now
    ensures Precedes(WakeDue(rt, now).readyQueue, x, y)
    decreases |rt.timers|
  {
    var first := Earliest(rt.timers).value;
    var rt1, due := rt.(timers := rt.timers - {first}), rt.timers[first];
    var woken := WakeAll(rt1, due);
    WakeAllReady(rt1, due);
    assert x in rt1.tasks.Keys && y in rt1.tasks.Keys && woken.tasks.Keys == rt1.tasks.Keys;
    if x in due {
      LaterIsLast(woken, now, x, y, dy);
    } else {
      WakesInOrder(woken, now, x, y, dx, dy);
    }
  }

  // ----- one event -----

  /** The events that end in a polling round. */
  predicate Polls(e: RuntimeEvent) { e.Poll? || e.Wake? || e.TimerTick? }

  /** What makes a task ready for the round an event starts. */
  ghost predicate ReadyFor(s: Sys, e: RuntimeEvent, id: TaskId) {
    || Fresh(s.rt, id)
    || (id in s.rt.tasks &&
        (s.rt.tasks[id] || e == Wake(id) || (e.TimerTick? && Due(s.rt.timers, s.k.clock, id))))
  }

  lemma {:induction false} RoundStart(s: Sys, e: RuntimeEvent)
    requires ReadyOk(s.rt) && Polls(e)
    ensures var rt := WokenBy(s, e);
      && ReadyOk(rt)
      && rt.tasks.Keys == s.rt.tasks.Keys && SameSpawns(s.rt, rt)
      && (forall id <- rt.tasks :: rt.tasks[id] <==>
         s.rt.tasks[id] || e == Wake(id) || (e.TimerTick? && Due(s.rt.timers, s.k.clock, id)))
  {
    match e
    case Wake(id) => WakeAllReady(s.rt, [id]); assert WakeAll(s.rt, [id]) == WakeTask(s.rt, id);
    case TimerTick => WakeDueReady(s.rt.(nextTimerDeadline := None), s.k.clock);
    case Poll =>
  }

  ghost function WokenBy(s: Sys, e: RuntimeEvent): Rt
    requires Polls(e)
  {
    match e
    case Poll => s.rt
    case Wake(id) => WakeTask(s.rt, id)
    case TimerTick => WakeDue(s.rt.(nextTimerDeadline := None), s.k.clock)
  }

  /**
   * A Poll, Wake or TimerTick polls every task ready at its start exactly once, and no other task,
   * whatever the ready-task policy answers; it leaves the ready queue empty. Other events poll nothing.
   */
  lemma {:induction false} EventPollsOnce<S>(s: Sys, e: RuntimeEvent, ps: S, answer: ReadyAnswer<S>, polls: Futures)
    requires ReadyOk(s.rt)
    ensures var (r, _, polled) := ProcessEvent(s, e, ps, answer, polls);
      && ReadyOk(r.rt)
      && Distinct(polled)
      && (forall id :: id in polled <==> Polls(e) && ReadyFor(s, e, id))
    ensures Polls(e) ==>
      var (r, _, polled) := ProcessEvent(s, e, ps, answer, polls);
      && r.rt.readyQueue == []
      && (forall id :: id in r.rt.tasks <==>
         (id in s.rt.tasks || Fresh(s.rt, id)) && (id in polled ==> !polls(id).ready))
  {
    if Polls(e) {
      var (r, _, polled) := Handled(s, e, ps, answer, polls);
      RoundStart(s, e);
      HandledRound(s, e, ps, answer, polls);
      RoundFor(s, e, r.rt, polled, polls);
    } else {
      QuietEvent(s, e, ps, answer, polls);
    }
  }

  lemma {:induction false} QuietEvent<S>(s: Sys, e: RuntimeEvent, ps: S, answer: ReadyAnswer<S>, polls: Futures)
    requires ReadyOk(s.rt) && !Polls(e)
    ensures var (r, _, polled) := ProcessEvent(s, e, ps, answer, polls); ReadyOk(r.rt) && polled == []
  {
    match e
    case Cancel(id) => CancelTaskReady(s, id, polls(id).acts);
    case RegisterTimer(id, deadline) => ReadyOkIgnoresTimers(s.rt, Register(s, id, deadline).rt);
    case CancelTimer(id, deadline) => ReadyOkIgnoresTimers(s.rt, Unregister(s, id, deadline).rt);
  }

  /** An event that polls nothing leaves the task table alone, but for a cancelled task, and the ready queue. */
  lemma {:induction false} QuietKeepsTasks<S>(s: Sys, e: RuntimeEvent, ps: S, answer: ReadyAnswer<S>, polls: Futures)
    requires !Polls(e)
    ensures var (r, _, polled) := ProcessEvent(s, e, ps, answer, polls);
            && r.rt.tasks == (if e.Cancel? then s.rt.tasks - {e.task} else s.rt.tasks)
            && r.rt.readyQueue == s.rt.readyQueue && polled == []
  {}

  lemma {:induction false} DropFutureReady(s: Sys, id: TaskId, acts: seq<Act>)
    requires ReadyOk(s.rt)
    ensures ReadyOk(DropFuture(s, id, acts).rt)
  {
    PerformAllReady(s.(rt := s.rt.(tasks := s.rt.tasks - {id})), if id in s.rt.tasks then acts else []);
  }

  lemma {:induction false} CancelTaskReady(s: Sys, id: TaskId, acts: seq<Act>)
    requires ReadyOk(s.rt)
    ensures ReadyOk(CancelTask(s, id, acts).rt)
  {
    DropFutureReady(s, id, acts);
    ReadyOkIgnoresTimers(DropFuture(s, id, acts).rt, CancelTask(s, id, acts).rt);
  }

  /** Where a round starts: tasks woken, due timers fired and the next tick scheduled, spawns installed. */
  ghost function RoundOpens(s: Sys, e: RuntimeEvent): Sys
    requires Polls(e)
  {
    var start := s.(rt := WokenBy(s, e));
    var s1 := if e.TimerTick? then ScheduleTick(start) else start;
    s1.(rt := Install(s1.rt))
  }

  /** The round takes the whole ready queue. */
  function Emptied(s: Sys): Sys {
    s.(rt := s.rt.(readyQueue := []))
  }

  lemma {:induction false} HandledFromOpen<S>(s: Sys, e: RuntimeEvent, ps: S, answer: ReadyAnswer<S>, polls: Futures)
    requires Polls(e)
    ensures var open := RoundOpens(s, e);
            Handled(s, e, ps, answer, polls) == PollAll(Emptied(open), ps, answer, open.rt.readyQueue, polls)
  {}

  lemma {:induction false} RoundOpensKeeps(s: Sys, e: RuntimeEvent)
    requires Polls(e)
    ensures var r := RoundOpens(s, e);
            && r.key == s.key && r.k.clock == s.k.clock
            && r.rt.spawnQueue == [] && r.rt.spawnQueueLocal == [] && r.rt.nextTaskId == WokenBy(s, e).nextTaskId
            && r.rt.timers == WokenBy(s, e).timers
  {}

  /** The snapshot has no duplicates, and every task that is ready for the round is in it. */
  lemma {:induction false} RoundOpensReady(s: Sys, e: RuntimeEvent)
    requires ReadyOk(s.rt) && Polls(e)
    ensures var r := RoundOpens(s, e).rt;
            Distinct(r.readyQueue) && forall id :: ReadyFor(s, e, id) ==> id in r.readyQueue && id in r.tasks
  {
    var start := s.(rt := WokenBy(s, e));
    var s1 := if e.TimerTick? then ScheduleTick(start) else start;
    RoundStart(s, e);
    ScheduleTickKeepsTasks(start);
    ReadyOkIgnoresTimers(start.rt, s1.rt);
    InstallOnce(s1.rt);
    forall id | ReadyFor(s, e, id)
      ensures id in Install(s1.rt).readyQueue && id in Install(s1.rt).tasks
    {
      assert id in s.rt.tasks.Keys <==> id in s1.rt.tasks.Keys;
    }
  }

  lemma {:induction false} HandledRound<S>(s: Sys, e: RuntimeEvent, ps: S, answer: ReadyAnswer<S>, polls: Futures)
    requires Polls(e) && ReadyOk(WokenBy(s, e))
    ensures var (r, _, polled) := Handled(s, e, ps, answer, polls); Round(WokenBy(s, e), r.rt, polled, polls)
  {
    var start := s.(rt := WokenBy(s, e));
    var s1 := if e.TimerTick? then ScheduleTick(start) else start;
    ScheduleTickKeepsTasks(start);
    ReadyOkIgnoresTimers(start.rt, s1.rt);
    PollReadyOnce(s1, ps, answer, polls);
  }

  lemma {:induction false} RoundFor(s: Sys, e: RuntimeEvent, r: Rt, polled: seq<TaskId>, polls: Futures)
    requires Polls(e) && Round(WokenBy(s, e), r, polled, polls)
    requires var rt := WokenBy(s, e);
      && rt.tasks.Keys == s.rt.tasks.Keys && SameSpawns(s.rt, rt)
      && (forall id <- rt.tasks :: rt.tasks[id] <==>
         s.rt.tasks[id] || e == Wake(id) || (e.TimerTick? && Due(s.rt.timers, s.k.clock, id)))
    ensures forall id :: id in polled <==> ReadyFor(s, e, id)
    ensures forall id :: id in r.tasks <==> (id in s.rt.tasks || Fresh(s.rt, id)) && (id in polled ==> !polls(id).ready)
  {
    var rt := WokenBy(s, e);
    forall id: TaskId
      ensures id in polled <==> ReadyFor(s, e, id)
      ensures id in rt.tasks <==> id in s.rt.tasks
    {
      assert id in rt.tasks.Keys <==> id in s.rt.tasks.Keys;
    }
  }

  lemma {:induction false} ScheduleTickKeepsTasks(s: Sys)
    ensures var r := ScheduleTick(s).rt;
      r.tasks == s.rt.tasks && r.readyQueue == s.rt.readyQueue && SameSpawns(s.rt, r) && r.timers == s.rt.timers
  {}

  lemma {:induction false} ReadyOkIgnoresTimers(rt: Rt, r: Rt)
    requires ReadyOk(rt) && r.tasks == rt.tasks && r.readyQueue == rt.readyQueue && SameSpawns(rt, r)
    ensures ReadyOk(r)
  {}

  // ----- whole runs -----

  lemma {:induction false} StepReady(s: Sys, l: Label)
    requires ReadyOk(s.rt)
    ensures ReadyOk(Step(s, l).rt)
    ensures Distinct(PolledBy(s, l))
    ensures Running(s) ==> var e := ChosenEntry(s, l);
      forall id :: id in PolledBy(s, l) <==>
        IsFor(e, s.key) && Polls(e.payload.event) && ReadyFor(Advanced(s, l), e.payload.event, id)
  {
    if Running(s) {
      var e := ChosenEntry(s, l);
      var p := Advanced(s, l);
      if IsFor(e, s.key) {
        EventPollsOnce(p, e.payload.event, 0, AnswerFrom(l.readyPicks), l.polls);
      } else {
        var acts := if Starts(p.k, e) then l.acts else [];
        PerformAllReady(p, acts);
        SpawnsAvoid(p, acts, p.rt.readyQueue);
      }
    }
  }

  lemma {:induction false} DriveReady(s: Sys, acts: seq<Act>)
    requires ReadyOk(s.rt)
    ensures ReadyOk(DriveAll(s, acts).rt)
    decreases |acts|
  {
    if acts != [] {
      PerformReady(s, acts[0]);
      assert DriveOne(s, acts[0]).rt == Perform(s, acts[0]).rt;
      DriveReady(DriveOne(s, acts[0]), acts[1..]);
    }
  }

  lemma {:induction false} MakeReady(s: Sys, m: Move)
    requires ReadyOk(s.rt)
    ensures ReadyOk(Make(s, m).rt)
  {
    match m
    case Turn(l) => StepReady(s, l);
    case Drive(acts) => DriveReady(s, acts);
  }

  /**
   * In every reachable state of every run the ready queue has no duplicates and agrees with the
   * queued marks; by StepReady every round then polls each ready task exactly once.
   */
  lemma {:induction false} ReadyAlways(s: Sys, ms: seq<Move>)
    requires ReadyOk(s.rt)
    ensures ReadyOk(Run(s, ms).rt)
    decreases |ms|
  {
    if ms != [] {
      MakeReady(s, ms[0]);
      ReadyAlways(Make(s, ms[0]), ms[1..]);
    }
  }

  // ----- the order of a round -----

  /** The live part of a snapshot. */
  function LivePart(q: seq<TaskId>, live: set<TaskId>): seq<TaskId> {
    if q == [] then [] else (if q[0] in live then [q[0]] else []) + LivePart(q[1..], live)
  }

  lemma {:induction false} LivePartCount(q: seq<TaskId>, live: set<TaskId>, id: TaskId)
    ensures multiset(LivePart(q, live))[id] == if id in live then multiset(q)[id] else 0
  {
    if q != [] {
      assert q == [q[0]] + q[1..];
      LivePartCount(q[1..], live, id);
    }
  }

  /** Taking out one task of a snapshot, which may end it, takes it out of the live part. */
  lemma {:induction false} LivePartStep(q: seq<TaskId>, i: nat, live: set<TaskId>, after: set<TaskId>)
    requires Distinct(q) && i < |q| && forall id :: id != q[i] ==> (id in after <==> id in live)
    ensures multiset(LivePart(q, live))
         == multiset(if q[i] in live then [q[i]] else []) + multiset(LivePart(SwapRemove(q, i), after))
  {
    var rest := SwapRemove(q, i);
    SwapRemoveDistinct(q, i);
    SwapRemoveMultiset(q, i);
    forall id: TaskId
      ensures multiset(LivePart(q, live))[id]
           == (multiset(if q[i] in live then [q[i]] else []) + multiset(LivePart(rest, after)))[id]
    {
      LivePartCount(q, live, id);
      LivePartCount(rest, after, id);
      assert id in multiset(rest) <==> id in rest;
    }
  }

  lemma {:induction false} PollAllStep<S>(s: Sys, ps: S, answer: ReadyAnswer<S>, left: seq<TaskId>, polls: Futures)
    requires left != []
    ensures var (ps', pick) := answer(ps, s.k.clock, left);
            var i := Clamp(pick, |left|);
            var rest := PollAll(PollOne(s, left[i], polls), ps', answer, SwapRemove(left, i), polls).2;
            PollAll(s, ps, answer, left, polls).2 == (if left[i] in s.rt.tasks then [left[i]] else []) + rest
  {}

  /** Whatever the policy answers, a round polls a permutation of the live part of its snapshot. */
  lemma {:induction false} PollAllPermutes<S>(s: Sys, ps: S, answer: ReadyAnswer<S>, left: seq<TaskId>, polls: Futures)
    requires Distinct(left)
    ensures multiset(PollAll(s, ps, answer, left, polls).2) == multiset(LivePart(left, s.rt.tasks.Keys))
    decreases |left|
  {
    if left != [] {
      var (ps', pick) := answer(ps, s.k.clock, left);
      var i := Clamp(pick, |left|);
      var s1 := PollOne(s, left[i], polls);
      SwapRemoveDistinct(left, i);
      PollAllStep(s, ps, answer, left, polls);
      PollAllPermutes(s1, ps', answer, SwapRemove(left, i), polls);
      LivePartStep(left, i, s.rt.tasks.Keys, s1.rt.tasks.Keys);
    }
  }

  /** The order in which a policy that always answers 0 goes through a snapshot. */
  function FirstOrder(q: seq<TaskId>): (r: seq<TaskId>)
    ensures |r| == |q|
    decreases |q|
  {
    if q == [] then [] else [q[0]] + FirstOrder(SwapRemove(q, 0))
  }

  ghost predicate AnswersFirst<S(!new)>(answer: ReadyAnswer<S>) {
    forall ps: S, t: Time, ready: seq<TaskId> :: answer(ps, t, ready).1 == 0
  }

  /** A round of live tasks under the FIFO policy polls them in that order. */
  lemma {:induction false} FifoRound<S(!new)>(s: Sys, ps: S, answer: ReadyAnswer<S>, left: seq<TaskId>, polls: Futures)
    requires AnswersFirst(answer) && Distinct(left) && forall id <- left :: id in s.rt.tasks
    ensures PollAll(s, ps, answer, left, polls).2 == FirstOrder(left)
    decreases |left|
  {
    if left != [] {
      var (ps', pick) := answer(ps, s.k.clock, left);
      assert pick == 0;
      SwapRemoveDistinct(left, 0);
      PollAllStep(s, ps, answer, left, polls);
      FifoRound(PollOne(s, left[0], polls), ps', answer, SwapRemove(left, 0), polls);
    }
  }

  /**
   * Filling the gap with the last task keeps the order of the ready queue for at most two tasks,
   * and for no more: of [a, b, c] the FIFO policy polls a, then c, then b.
   */
  lemma {:induction false} FifoKeepsOrder(q: seq<TaskId>)
    requires Distinct(q)
    ensures FirstOrder(q) == q <==> |q| <= 2
    ensures |q| == 3 ==> FirstOrder(q) == [q[0], q[2], q[1]]
  {
    if |q| >= 2 {
      var rest := SwapRemove(q, 0);
      assert FirstOrder(q)[1] == FirstOrder(rest)[0] == rest[0] == q[|q| - 1];
      if |q| == 2 {
        assert rest == [q[1]];
        FirstOfOne(q[1]);
      } else if |q| == 3 {
        assert rest == [q[2], q[1]] && SwapRemove(rest, 0) == [q[1]];
        FirstOfOne(q[1]);
      }
    } else if |q| == 1 {
      assert q == [q[0]];
      FirstOfOne(q[0]);
    }
  }

  lemma {:induction false} FirstOfOne(id: TaskId)
    ensures FirstOrder([id]) == [id]
  {
    assert SwapRemove([id], 0) == [];
  }
}
