/** No spawn request is lost: while one waits, a poll of the runtime is queued for the current instant. */
module RuntimeSpawns {
  import opened SimTime
  import opened Ids
  import opened Vectors
  import opened Runtime
  import opened RuntimeSteps
  import opened RuntimePolling
  import opened RuntimeCode
  import opened KernelRuns
  import Kernel

  ghost predicate AnySpawns(rt: Rt) { rt.spawnQueue != [] || rt.spawnQueueLocal != [] }

  ghost predicate IsPollNow(e: Kernel.Entry<Message>, s: Sys) {
    IsEvent(e, s.key, Poll) && e.time == s.k.clock
  }

  ghost predicate PollQueued(s: Sys) {
    exists e <- s.k.events :: IsPollNow(e, s)
  }

  ghost predicate PollDeferred(s: Sys) {
    Kernel.Deferred(0, s.key, ToRuntime(Poll)) in s.k.deferred
  }

  /** Between steps. */
  ghost predicate SpawnsSeen(s: Sys) {
    NotPast(s) && (AnySpawns(s.rt) ==> PollQueued(s))
  }

  /** Inside a step the poll may still be a deferred wake. */
  ghost predicate SpawnsComing(s: Sys) {
    AnySpawns(s.rt) ==> PollQueued(s) || PollDeferred(s)
  }

  /**
   * Installing the runtime queues a poll for the current instant, whatever else is scheduled; it
   * covers the spawns made before.
   */
  lemma {:induction false} InstalledSeesSpawns(s: Sys)
    requires NotPast(s)
    ensures SpawnsSeen(Installed(s)) && ReadySeen(Installed(s))
  {
    var r := Installed(s);
    assert IsPollNow(Kernel.ComponentEvent(s.k.nextEvent + 1, s.k.clock, s.key, ToRuntime(Poll)), r);
  }

  lemma {:induction false} ComingKept(s: Sys, r: Sys)
    requires SpawnsComing(s) && Follows(s, r) && (AnySpawns(r.rt) ==> AnySpawns(s.rt))
    ensures SpawnsComing(r)
  {
    if AnySpawns(r.rt) && PollQueued(s) {
      var e :| e in s.k.events && IsPollNow(e, s);
      assert e in r.k.events && IsPollNow(e, r);
    }
  }

  lemma {:induction false} PerformComing(s: Sys, a: Act)
    requires SpawnsComing(s)
    ensures SpawnsComing(Perform(s, a))
  {
    IssuesOne(s, Perform(s, a), CommandOf(s.key, a));
    IssuesFollows(s, Perform(s, a));
    if !a.SpawnVia? {
      ComingKept(s, Perform(s, a));
    }
  }

  lemma {:induction false} PerformAllComing(s: Sys, acts: seq<Act>)
    requires SpawnsComing(s)
    ensures SpawnsComing(PerformAll(s, acts))
    decreases |acts|
  {
    if acts != [] {
      PerformComing(s, acts[0]);
      PerformAllComing(Perform(s, acts[0]), acts[1..]);
    }
  }

  lemma {:induction false} PollAllComing<S>(s: Sys, ps: S, answer: ReadyAnswer<S>, left: seq<TaskId>, polls: Futures)
    requires SpawnsComing(s)
    ensures SpawnsComing(PollAll(s, ps, answer, left, polls).0)
    decreases |left|
  {
    if left != [] {
      var (ps', pick) := answer(ps, s.k.clock, left);
      var i := Clamp(pick, |left|);
      PollOneComing(s, left[i], polls);
      PollAllComing(PollOne(s, left[i], polls), ps', answer, SwapRemove(left, i), polls);
    }
  }

  lemma {:induction false} PollOneComing(s: Sys, id: TaskId, polls: Futures)
    requires SpawnsComing(s)
    ensures SpawnsComing(PollOne(s, id, polls))
  {
    if id in s.rt.tasks {
      var s1 := s.(rt := s.rt.(tasks := s.rt.tasks[id := false]));
      ComingKept(s, s1);
      PerformAllComing(s1, polls(id).acts);
      ComingKept(PerformAll(s1, polls(id).acts), PollOne(s, id, polls));
    }
  }

  lemma {:induction false} HandledComing<S>(s: Sys, e: RuntimeEvent, ps: S, answer: ReadyAnswer<S>, polls: Futures)
    requires Polls(e) || SpawnsComing(s)
    ensures SpawnsComing(Handled(s, e, ps, answer, polls).0)
  {
    if Polls(e) {
      var open := RoundOpens(s, e);
      RoundOpensKeeps(s, e);
      HandledFromOpen(s, e, ps, answer, polls);
      PollAllComing(Emptied(open), ps, answer, open.rt.readyQueue, polls);
    } else if e.Cancel? {
      CancelComing(s, e.task, polls(e.task).acts);
    } else {
      HandledIssues(s, e, ps, answer, polls);
      IssuesFollows(s, Handled(s, e, ps, answer, polls).0);
      ComingKept(s, Handled(s, e, ps, answer, polls).0);
    }
  }

  lemma {:induction false} CancelComing(s: Sys, id: TaskId, acts: seq<Act>)
    requires SpawnsComing(s)
    ensures SpawnsComing(CancelTask(s, id, acts))
  {
    var s1 := s.(rt := s.rt.(tasks := s.rt.tasks - {id}));
    var r := DropFuture(s, id, acts);
    var q := r.(rt := DropTimers(r.rt, id));
    ComingKept(s, s1);
    PerformAllComing(s1, if id in s.rt.tasks then acts else []);
    ScheduleTickIssues(q);
    IssuesFollows(q, ScheduleTick(q));
    ComingKept(r, ScheduleTick(q));
  }

  lemma {:induction false} EntryComing(s: Sys, e: Kernel.Entry<Message>, l: Label)
    requires (IsFor(e, s.key) && Polls(e.payload.event)) || SpawnsComing(s)
    ensures SpawnsComing(ProcessEntry(s, e, l))
  {
    if IsFor(e, s.key) {
      var r := Handled(s, e.payload.event, 0, AnswerFrom(l.readyPicks), l.polls).0;
      HandledComing(s, e.payload.event, 0, AnswerFrom(l.readyPicks), l.polls);
      PushIssues(r, 0, Poll);
      IssuesFollows(r, r.(k := Kernel.PushComponent(r.k, 0, r.key, ToRuntime(Poll))));
      ComingKept(r, ProcessEntry(s, e, l));
    } else {
      ForeignComing(s, e, l);
    }
  }

  lemma {:induction false} SpawnsDefer(s: Sys, acts: seq<Act>)
    ensures AnySpawns(PerformAll(s, acts).rt) ==> AnySpawns(s.rt) || WakeUp(s.key, Poll) in CommandsOf(s.key, acts)
    decreases |acts|
  {
    if acts != [] {
      SpawnsDefer(Perform(s, acts[0]), acts[1..]);
    }
  }

  lemma {:induction false} ForeignComing(s: Sys, e: Kernel.Entry<Message>, l: Label)
    requires SpawnsComing(s)
    ensures SpawnsComing(ProcessForeign(s, e, l))
  {
    var r := ProcessForeign(s, e, l);
    ProcessFollows(s.k, e, ForeignWork(s.key, l));
    if Starts(s.k, e) && WakeUp(s.key, Poll) in CommandsOf(s.key, l.acts) {
      var start := if e.TaskEvent? then Kernel.Started(s.k, e.taskId) else s.k;
      DoAllDefersEach(start, CommandsOf(s.key, l.acts), Kernel.Deferred(0, s.key, ToRuntime(Poll)));
    } else {
      SpawnsDefer(s, l.acts);
      ComingKept(s, r);
    }
  }

  /** A waiting spawn's poll survives the removal of any other entry. */
  lemma {:induction false} PopKeepsPoll(s: Sys, l: Label)
    requires SpawnsSeen(s) && Running(s)
    ensures var e := ChosenEntry(s, l);
      (IsFor(e, s.key) && Polls(e.payload.event)) || SpawnsComing(Advanced(s, l))
    ensures AnySpawns(s.rt) ==> Advanced(s, l).k.clock == s.k.clock
  {
    PopStep(s, l);
    if AnySpawns(s.rt) {
      var e :| e in s.k.events && IsPollNow(e, s);
      assert e in Kernel.Live(s.k);
      if e != ChosenEntry(s, l) {
        assert e in Advanced(s, l).k.events && IsPollNow(e, Advanced(s, l));
      }
    }
  }

  /** Whatever policies answer and code does, a waiting spawn request keeps a poll queued at the clock. */
  lemma {:induction false} StepSeesSpawns(s: Sys, l: Label)
    requires SpawnsSeen(s)
    ensures SpawnsSeen(Step(s, l))
  {
    StepNotPast(s, l);
    if Running(s) {
      PopKeepsPoll(s, l);
      var p := Advanced(s, l);
      var e := ChosenEntry(s, l);
      EntryComing(p, e, l);
      EntryFollows(p, e, l);
      PopStep(s, l);
      DrainSeesSpawns(ProcessEntry(p, e, l));
    } else if AnySpawns(s.rt) {
      WaitingMeansRunning(s);
    }
  }

  lemma {:induction false} PollMeansRunning(s: Sys)
    requires PollQueued(s)
    ensures Running(s)
  {
    var e :| e in s.k.events && IsPollNow(e, s);
    assert e in Kernel.Live(s.k);
  }

  /** A simulation with a waiting request is not over. */
  lemma {:induction false} WaitingMeansRunning(s: Sys)
    requires SpawnsSeen(s) && AnySpawns(s.rt)
    ensures Running(s)
  {
    PollMeansRunning(s);
  }

  lemma {:induction false} DrainSeesSpawns(s: Sys)
    requires NotPast(s) && SpawnsComing(s)
    ensures SpawnsSeen(s.(k := Kernel.Drain(s.k)))
  {
    var r := s.(k := Kernel.Drain(s.k));
    DrainStep(s);
    if AnySpawns(s.rt) {
      if PollQueued(s) {
        var e :| e in s.k.events && IsPollNow(e, s);
        assert e in r.k.events && IsPollNow(e, r);
      } else {
        var d := Kernel.Deferred(0, s.key, ToRuntime(Poll));
        assert d in s.k.deferred;
        var e :| e in r.k.events && IsWakeFor(e, d, s.k.clock);
        assert IsPollNow(e, r);
      }
    }
  }

  // ----- spawns between steps -----

  /** The act schedules a poll of the runtime for the current instant. */
  predicate IsPollAct(a: Act, key: Uuid, clock: Time) {
    && a.Sched? && a.command.Schedule?
    && a.command.component == key && a.command.payload == ToRuntime(Poll) && Plus(clock, a.command.delay) == clock
  }

  predicate SchedulesPoll(key: Uuid, clock: Time, acts: seq<Act>) {
    exists a <- acts :: IsPollAct(a, key, clock)
  }

  lemma {:induction false} DrivePolls(s: Sys, acts: seq<Act>)
    ensures PollQueued(DriveAll(s, acts)) <==> PollQueued(s) || SchedulesPoll(s.key, s.k.clock, acts)
    decreases |acts|
  {
    if acts != [] {
      var r := DriveOne(s, acts[0]);
      DriveOnePolls(s, acts[0]);
      DrivePolls(r, acts[1..]);
      SchedulesFirst(s.key, s.k.clock, acts);
    }
  }

  lemma {:induction false} SchedulesFirst(key: Uuid, clock: Time, acts: seq<Act>)
    requires acts != []
    ensures SchedulesPoll(key, clock, acts) <==> IsPollAct(acts[0], key, clock) || SchedulesPoll(key, clock, acts[1..])
  {
    assert forall a :: a in acts <==> a == acts[0] || a in acts[1..];
  }

  lemma {:induction false} DriveOnePolls(s: Sys, a: Act)
    ensures PollQueued(DriveOne(s, a)) <==> PollQueued(s) || IsPollAct(a, s.key, s.k.clock)
  {
    var r := DriveOne(s, a);
    if PollQueued(s) {
      PollKept(s, r);
    }
    if IsPollAct(a, s.key, s.k.clock) {
      var e := Kernel.ComponentEvent(s.k.nextEvent + 1, s.k.clock, s.key, ToRuntime(Poll));
      assert e in r.k.events && IsPollNow(e, r);
    }
    if PollQueued(r) && !PollQueued(s) {
      NewPoll(s, a);
    }
  }

  lemma {:induction false} PollKept(s: Sys, r: Sys)
    requires PollQueued(s) && r.key == s.key && r.k.clock == s.k.clock && s.k.events <= r.k.events
    ensures PollQueued(r)
  {
    var e :| e in s.k.events && IsPollNow(e, s);
    assert e in r.k.events && IsPollNow(e, r);
  }

  lemma {:induction false} NewPoll(s: Sys, a: Act)
    requires PollQueued(DriveOne(s, a)) && !PollQueued(s)
    ensures IsPollAct(a, s.key, s.k.clock)
  {
    var r := DriveOne(s, a);
    var e :| e in r.k.events && IsPollNow(e, r);
    assert !(e in s.k.events && IsPollNow(e, s));
    assert e !in s.k.events;
  }

  /** The requests a driver leaves waiting have their poll. */
  ghost predicate Covered(s: Sys, acts: seq<Act>) {
    AnySpawns(DriveAll(s, acts).rt) ==> PollQueued(s) || SchedulesPoll(s.key, s.k.clock, acts)
  }

  /**
   * Outside event processing a handle's spawn wakes nobody, so it is seen exactly if a poll is
   * already queued for the current instant, as after an installation, or the driver schedules one.
   */
  lemma {:induction false} DriveSeesSpawns(s: Sys, acts: seq<Act>)
    requires NotPast(s)
    ensures SpawnsSeen(DriveAll(s, acts)) <==> Covered(s, acts)
  {
    DriveNotPast(s, acts);
    DrivePolls(s, acts);
  }

  /** Between the steps of a run the driver leaves no request without a poll. */
  ghost predicate AlwaysCovered(s: Sys, ms: seq<Move>)
    decreases |ms|
  {
    ms != [] ==> (ms[0].Drive? ==> Covered(s, ms[0].acts)) && AlwaysCovered(Make(s, ms[0]), ms[1..])
  }

  lemma {:induction false} NoLostSpawn(s: Sys, ms: seq<Move>)
    requires SpawnsSeen(s) && AlwaysCovered(s, ms)
    ensures SpawnsSeen(Run(s, ms))
    decreases |ms|
  {
    if ms != [] {
      match ms[0] {
        case Turn(l) => StepSeesSpawns(s, l);
        case Drive(acts) => DriveSeesSpawns(s, acts);
      }
      NoLostSpawn(Make(s, ms[0]), ms[1..]);
    }
  }

  // ----- ready tasks -----

  /** Tasks in the ready queue have a poll queued for the current instant. */
  ghost predicate ReadySeen(s: Sys) {
    s.rt.readyQueue != [] ==> PollQueued(s)
  }

  /** The runtime asks for a poll itself whenever an event leaves tasks in the ready queue. */
  lemma {:induction false} EventSeesReady(s: Sys, l: Label)
    requires NotPast(s) && Running(s) && IsFor(ChosenEntry(s, l), s.key)
    ensures ReadySeen(Step(s, l))
  {
    PopStep(s, l);
    var p, e := Advanced(s, l), ChosenEntry(s, l);
    var h, q := Handled(p, e.payload.event, 0, AnswerFrom(l.readyPicks), l.polls).0, ProcessEntry(p, e, l);
    EntryFollows(p, e, l);
    DrainStep(q);
    if Step(s, l).rt.readyQueue != [] {
      var poll := Kernel.ComponentEvent(h.k.nextEvent + 1, Plus(h.k.clock, 0), s.key, ToRuntime(Poll));
      assert poll in q.k.events && poll in Step(s, l).k.events;
      HandledIssues(p, e.payload.event, 0, AnswerFrom(l.readyPicks), l.polls);
      IssuesFollows(p, h);
      assert IsPollNow(poll, Step(s, l));
    }
  }

  lemma {:induction false} StepSeesReady(s: Sys, l: Label)
    requires NotPast(s) && ReadySeen(s)
    ensures ReadySeen(Step(s, l))
  {
    if Running(s) {
      if IsFor(ChosenEntry(s, l), s.key) {
        EventSeesReady(s, l);
      } else if s.rt.readyQueue != [] {
        var e :| e in s.k.events && IsPollNow(e, s);
        assert e in Kernel.Live(s.k);
        PopStep(s, l);
        EntryFollows(Advanced(s, l), ChosenEntry(s, l), l);
        DrainStep(ProcessEntry(Advanced(s, l), ChosenEntry(s, l), l));
        assert e in Step(s, l).k.events && IsPollNow(e, Step(s, l));
      }
    } else if PollQueued(s) {
      PollMeansRunning(s);
    }
  }

  /** In every reachable state a ready task has its poll queued: none is left in the ready queue for ever. */
  lemma {:induction false} NoStrandedTask(s: Sys, ms: seq<Move>)
    requires NotPast(s) && ReadySeen(s)
    ensures ReadySeen(Run(s, ms))
    decreases |ms|
  {
    if ms != [] {
      match ms[0] {
        case Turn(l) =>
          StepNotPast(s, l);
          StepSeesReady(s, l);
        case Drive(acts) =>
          DriveNotPast(s, acts);
          DrivePolls(s, acts);
      }
      NoStrandedTask(Make(s, ms[0]), ms[1..]);
    }
  }

  // ----- what becomes of one request -----

  /** Code run by a step withdrew the request through a handle. */
  ghost predicate Withdraws(acts: seq<Act>, id: TaskId) {
    exists a <- acts :: a.CancelVia? && a.task == id
  }

  lemma {:induction false} PerformAllSpawns(s: Sys, acts: seq<Act>, id: TaskId)
    requires Fresh(s.rt, id)
    ensures Withdraws(acts, id) || Fresh(PerformAll(s, acts).rt, id)
    decreases |acts|
  {
    if acts != [] {
      if Fresh(Perform(s, acts[0]).rt, id) {
        PerformAllSpawns(Perform(s, acts[0]), acts[1..], id);
        if Withdraws(acts[1..], id) {
          var a :| a in acts[1..] && a.CancelVia? && a.task == id;
          assert a in acts;
        }
      } else {
        assert acts[0] in acts;
      }
    }
  }

  /** Installed and polled in this step. */
  ghost predicate InstalledBy(s: Sys, l: Label, id: TaskId) {
    id in PolledBy(s, l) && !Fresh(Step(s, l).rt, id) && (id in Step(s, l).rt.tasks <==> !l.polls(id).ready)
  }

  /** Not installed yet, and not polled. */
  ghost predicate KeptBy(s: Sys, l: Label, id: TaskId) {
    id !in PolledBy(s, l) && Fresh(Step(s, l).rt, id)
  }

  /** By a foreign component or task, or by the destructors of a future that is cancelled. */
  ghost predicate WithdrawnBy(s: Sys, l: Label, id: TaskId)
    requires Running(s)
  {
    var e := ChosenEntry(s, l);
    if IsFor(e, s.key) then e.payload.event.Cancel? && Withdraws(l.polls(e.payload.event.task).acts, id)
    else Withdraws(l.acts, id)
  }

  /**
   * One step of a waiting request, during which simulated time does not move: it is installed and
   * polled, or withdrawn by a handle, or it still waits.
   */
  lemma {:induction false} SpawnStep(s: Sys, l: Label, id: TaskId)
    requires ReadyOk(s.rt) && SpawnsSeen(s) && Fresh(s.rt, id)
    ensures Running(s) && Step(s, l).k.clock == s.k.clock
    ensures InstalledBy(s, l, id) || KeptBy(s, l, id) || WithdrawnBy(s, l, id)
  {
    WaitingMeansRunning(s);
    PopKeepsPoll(s, l);
    PopStep(s, l);
    var p := Advanced(s, l);
    var e := ChosenEntry(s, l);
    EntryFollows(p, e, l);
    DrainStep(ProcessEntry(p, e, l));
    if IsFor(e, s.key) {
      SpawnEvent(s, l, id);
    } else {
      PerformAllSpawns(p, if Starts(p.k, e) then l.acts else [], id);
    }
  }

  lemma {:induction false} SpawnEvent(s: Sys, l: Label, id: TaskId)
    requires ReadyOk(s.rt) && Fresh(s.rt, id) && Running(s) && IsFor(ChosenEntry(s, l), s.key)
    ensures InstalledBy(s, l, id) || KeptBy(s, l, id) || WithdrawnBy(s, l, id)
  {
    var p := Advanced(s, l);
    var e := ChosenEntry(s, l).payload.event;
    EventPollsOnce(p, e, 0, AnswerFrom(l.readyPicks), l.polls);
    if Polls(e) {
      EventDrainsSpawns(p, e, l, id);
    } else if e.Cancel? {
      CancelKeepsSpawns(p, e.task, l.polls(e.task).acts, id);
    } else {
      QuietKeepsSpawns(p, e, l, id);
    }
  }

  lemma {:induction false} QuietKeepsSpawns(s: Sys, e: RuntimeEvent, l: Label, id: TaskId)
    requires !Polls(e) && !e.Cancel?
    ensures SameSpawns(s.rt, ProcessEvent(s, e, 0, AnswerFrom(l.readyPicks), l.polls).0.rt)
  {}

  lemma {:induction false} CancelKeepsSpawns(s: Sys, task: TaskId, acts: seq<Act>, id: TaskId)
    requires Fresh(s.rt, id)
    ensures Withdraws(acts, id) || Fresh(CancelTask(s, task, acts).rt, id)
  {
    PerformAllSpawns(s.(rt := s.rt.(tasks := s.rt.tasks - {task})), if task in s.rt.tasks then acts else [], id);
  }

  /** A round leaves no request of before waiting, even if it is withdrawn too late. */
  lemma {:induction false} EventDrainsSpawns(s: Sys, e: RuntimeEvent, l: Label, id: TaskId)
    requires id < s.rt.nextTaskId && Polls(e)
    ensures !Fresh(ProcessEvent(s, e, 0, AnswerFrom(l.readyPicks), l.polls).0.rt, id)
  {
    RoundDrainsSpawns(s, e, l, id);
  }

  lemma {:induction false} RoundDrainsSpawns(s: Sys, e: RuntimeEvent, l: Label, id: TaskId)
    requires id < s.rt.nextTaskId && Polls(e)
    ensures var r := Handled(s, e, 0, AnswerFrom(l.readyPicks), l.polls).0.rt; id < r.nextTaskId && !Fresh(r, id)
  {
    var open := RoundOpens(s, e);
    WokenBySpawns(s, e);
    RoundOpensKeeps(s, e);
    HandledFromOpen(s, e, 0, AnswerFrom(l.readyPicks), l.polls);
    PollAllNoFresh(Emptied(open), 0, AnswerFrom(l.readyPicks), open.rt.readyQueue, l.polls, id);
  }

  lemma {:induction false} PollAllNoFresh<S>(
      s: Sys, ps: S, answer: ReadyAnswer<S>, left: seq<TaskId>, polls: Futures, id: TaskId)
    requires !Fresh(s.rt, id) && id < s.rt.nextTaskId
    ensures var r := PollAll(s, ps, answer, left, polls).0.rt; !Fresh(r, id) && id < r.nextTaskId
    decreases |left|
  {
    if left != [] {
      var (ps', pick) := answer(ps, s.k.clock, left);
      var i := Clamp(pick, |left|);
      if left[i] in s.rt.tasks {
        SpawnsAvoid(s.(rt := s.rt.(tasks := s.rt.tasks[left[i] := false])), polls(left[i]).acts, [id]);
        assert id in [id];
      }
      PollAllNoFresh(PollOne(s, left[i], polls), ps', answer, SwapRemove(left, i), polls, id);
    }
  }

  /** Installed or withdrawn once, a request never comes back: each is installed at most once. */
  lemma {:induction false} NeverFreshAgain(s: Sys, ms: seq<Move>, id: TaskId)
    requires id < s.rt.nextTaskId && !Fresh(s.rt, id)
    ensures !Fresh(Run(s, ms).rt, id)
    decreases |ms|
  {
    if ms != [] {
      match ms[0] {
        case Turn(l) => StepNoFresh(s, l, id);
        case Drive(acts) => DriveNoFresh(s, acts, id);
      }
      NeverFreshAgain(Make(s, ms[0]), ms[1..], id);
    }
  }

  lemma {:induction false} DriveNoFresh(s: Sys, acts: seq<Act>, id: TaskId)
    requires id < s.rt.nextTaskId && !Fresh(s.rt, id)
    ensures var r := DriveAll(s, acts).rt; id < r.nextTaskId && !Fresh(r, id)
    decreases |acts|
  {
    if acts != [] {
      DriveNoFresh(DriveOne(s, acts[0]), acts[1..], id);
    }
  }

  lemma {:induction false} StepNoFresh(s: Sys, l: Label, id: TaskId)
    requires id < s.rt.nextTaskId && !Fresh(s.rt, id)
    ensures var r := Step(s, l).rt; id < r.nextTaskId && !Fresh(r, id)
  {
    if Running(s) {
      var p := Advanced(s, l);
      var e := ChosenEntry(s, l);
      if IsFor(e, s.key) {
        HandledNoFresh(p, e.payload.event, l, id);
      } else {
        SpawnsAvoid(p, if Starts(p.k, e) then l.acts else [], [id]);
        assert id in [id];
      }
    }
  }

  lemma {:induction false} HandledNoFresh(s: Sys, e: RuntimeEvent, l: Label, id: TaskId)
    requires id < s.rt.nextTaskId && !Fresh(s.rt, id)
    ensures var r := Handled(s, e, 0, AnswerFrom(l.readyPicks), l.polls).0.rt; id < r.nextTaskId && !Fresh(r, id)
  {
    if Polls(e) {
      RoundDrainsSpawns(s, e, l, id);
    } else if e.Cancel? {
      SpawnsAvoid(s.(rt := s.rt.(tasks := s.rt.tasks - {e.task})),
        if e.task in s.rt.tasks then l.polls(e.task).acts else [], [id]);
      assert id in [id];
    }
  }

  // ----- tasks that have ended -----

  /** The task has been installed, and has finished or was cancelled; or its request was withdrawn. */
  ghost predicate HasEnded(rt: Rt, id: TaskId) {
    id < rt.nextTaskId && id !in rt.tasks && !Fresh(rt, id)
  }

  lemma {:induction false} StepKeepsEnded(s: Sys, l: Label, id: TaskId)
    requires ReadyOk(s.rt) && HasEnded(s.rt, id)
    ensures HasEnded(Step(s, l).rt, id) && id !in PolledBy(s, l)
  {
    StepNoFresh(s, l, id);
    StepReady(s, l);
    if Running(s) && IsFor(ChosenEntry(s, l), s.key) {
      EventKeepsEnded(Advanced(s, l), ChosenEntry(s, l).payload.event, l, id);
    }
  }

  lemma {:induction false} EventKeepsEnded(s: Sys, e: RuntimeEvent, l: Label, id: TaskId)
    requires ReadyOk(s.rt) && id !in s.rt.tasks && !Fresh(s.rt, id)
    ensures id !in ProcessEvent(s, e, 0, AnswerFrom(l.readyPicks), l.polls).0.rt.tasks
  {
    if Polls(e) {
      EventPollsOnce(s, e, 0, AnswerFrom(l.readyPicks), l.polls);
    } else {
      QuietKeepsTasks(s, e, 0, AnswerFrom(l.readyPicks), l.polls);
    }
  }

  /** A run never polls the task. */
  ghost predicate NeverPolls(s: Sys, ms: seq<Move>, id: TaskId)
    decreases |ms|
  {
    ms != [] ==>
      && (ms[0].Turn? ==> id !in PolledBy(s, ms[0].l))
      && NeverPolls(Make(s, ms[0]), ms[1..], id)
  }

  /** What has ended stays so: no run polls it again. */
  lemma {:induction false} EndedForGood(s: Sys, ms: seq<Move>, id: TaskId)
    requires ReadyOk(s.rt) && HasEnded(s.rt, id)
    ensures HasEnded(Run(s, ms).rt, id) && NeverPolls(s, ms, id)
    decreases |ms|
  {
    if ms != [] {
      match ms[0] {
        case Turn(l) => StepKeepsEnded(s, l, id);
        case Drive(acts) => DriveNoFresh(s, acts, id);
      }
      MakeReady(s, ms[0]);
      EndedForGood(Make(s, ms[0]), ms[1..], id);
    }
  }

  /** A task whose future is done when it is polled has ended with that step. */
  lemma {:induction false} FinishedEnds(s: Sys, l: Label, id: TaskId)
    requires ReadyOk(s.rt) && id in PolledBy(s, l) && l.polls(id).ready
    ensures HasEnded(Step(s, l).rt, id)
  {
    var p, e := Advanced(s, l), ChosenEntry(s, l).payload.event;
    EventPollsOnce(p, e, 0, AnswerFrom(l.readyPicks), l.polls);
    RoundDrainsSpawns(p, e, l, id);
  }

  /** Processing its cancellation ends a live task, and no other. */
  lemma {:induction false} CancelEnds(s: Sys, l: Label, id: TaskId)
    requires ReadyOk(s.rt) && Running(s) && IsEvent(ChosenEntry(s, l), s.key, Cancel(id))
    ensures Step(s, l).rt.tasks == s.rt.tasks - {id}
    ensures id in s.rt.tasks ==> HasEnded(Step(s, l).rt, id)
  {
    var p := Advanced(s, l);
    QuietKeepsTasks(p, Cancel(id), 0, AnswerFrom(l.readyPicks), l.polls);
    if id in s.rt.tasks {
      StepNoFresh(s, l, id);
    }
  }

  // ----- what the handles do -----

  /** The queue of a handle. */
  function QueueOf(rt: Rt, isLocal: bool): seq<TaskId> {
    if isLocal then rt.spawnQueueLocal else rt.spawnQueue
  }

  /** How many tasks are spawned through handles. */
  function SpawnCount(acts: seq<Act>): nat {
    if acts == [] then 0 else (if acts[0].SpawnVia? then 1 else 0) + SpawnCount(acts[1..])
  }

  /** Each spawn takes the next id. */
  lemma {:induction false} SpawnsTakeIds(s: Sys, acts: seq<Act>)
    ensures PerformAll(s, acts).rt.nextTaskId == s.rt.nextTaskId + SpawnCount(acts)
    decreases |acts|
  {
    if acts != [] {
      SpawnsTakeIds(Perform(s, acts[0]), acts[1..]);
    }
  }

  /** A request stays in its queue exactly as long as its own kind of handle does not withdraw it. */
  lemma {:induction false} WaitsUntilWithdrawn(s: Sys, acts: seq<Act>, isLocal: bool, id: TaskId)
    requires id < s.rt.nextTaskId
    ensures id in QueueOf(PerformAll(s, acts).rt, isLocal) <==>
            id in QueueOf(s.rt, isLocal) && CancelVia(isLocal, id) !in acts
    decreases |acts|
  {
    if acts != [] {
      WaitsUntilAct(s.rt, acts[0], isLocal, id);
      WaitsUntilWithdrawn(Perform(s, acts[0]), acts[1..], isLocal, id);
      var c := CancelVia(isLocal, id);
      assert c in acts <==> c == acts[0] || c in acts[1..];
    }
  }

  lemma {:induction false} WaitsUntilAct(rt: Rt, a: Act, isLocal: bool, id: TaskId)
    requires id < rt.nextTaskId
    ensures id < ActOn(rt, a).nextTaskId
    ensures id in QueueOf(ActOn(rt, a), isLocal) <==> id in QueueOf(rt, isLocal) && a != CancelVia(isLocal, id)
  {}

  /** A spawn among other acts waits in its handle's queue, under the next id, unless a later act withdraws it. */
  lemma {:induction false} SpawnedWaits(s: Sys, before: seq<Act>, isLocal: bool, after: seq<Act>)
    ensures var r, id := PerformAll(s, before + [SpawnVia(isLocal)] + after).rt, s.rt.nextTaskId + SpawnCount(before);
            id in QueueOf(r, isLocal) <==> CancelVia(isLocal, id) !in after
  {
    var b, id := PerformAll(s, before), s.rt.nextTaskId + SpawnCount(before);
    var c := Perform(b, SpawnVia(isLocal));
    SpawnsTakeIds(s, before);
    PerformAllAppend(s, before + [SpawnVia(isLocal)], after);
    PerformAllAppend(s, before, [SpawnVia(isLocal)]);
    assert PerformAll(b, [SpawnVia(isLocal)]) == PerformAll(c, []);
    assert QueueOf(c.rt, isLocal) == QueueOf(b.rt, isLocal) + [id];
    WaitsUntilWithdrawn(c, after, isLocal, id);
  }

  lemma {:induction false} SpawnedWaitsIn(
      s: Sys, acts: seq<Act>, r: Rt, before: seq<Act>, isLocal: bool, after: seq<Act>, id: TaskId)
    requires acts == before + [SpawnVia(isLocal)] + after && id == s.rt.nextTaskId + SpawnCount(before)
    requires SameSpawns(PerformAll(s, acts).rt, r)
    ensures id in QueueOf(r, isLocal) <==> CancelVia(isLocal, id) !in after
  {
    SpawnedWaits(s, before, isLocal, after);
  }

  /**
   * After a step whose code spawns a task through a handle, the request waits under the id that the
   * spawn took, exactly unless the code withdrew it later in the same step.
   */
  lemma {:induction false} StepSpawns(
      s: Sys, l: Label, before: seq<Act>, isLocal: bool, after: seq<Act>, id: TaskId)
    requires Performed(s, l) == before + [SpawnVia(isLocal)] + after && id == s.rt.nextTaskId + SpawnCount(before)
    ensures id in QueueOf(Step(s, l).rt, isLocal) <==> CancelVia(isLocal, id) !in after
  {
    var start := StepPerforms(s, l);
    SpawnedWaitsIn(start, Performed(s, l), Step(s, l).rt, before, isLocal, after, id);
  }

  /** A step hands out as many ids as its code spawns tasks. */
  lemma {:induction false} StepTakesIds(s: Sys, l: Label)
    ensures Step(s, l).rt.nextTaskId == s.rt.nextTaskId + SpawnCount(Performed(s, l))
  {
    var start := StepPerforms(s, l);
    SpawnsTakeIds(start, Performed(s, l));
  }

  /** On the spawn queues a driver's acts do what they do inside a step. */
  lemma {:induction false} DriveLikeCode(s: Sys, r: Sys, acts: seq<Act>)
    requires SameSpawns(s.rt, r.rt)
    ensures SameSpawns(DriveAll(s, acts).rt, PerformAll(r, acts).rt)
    decreases |acts|
  {
    if acts != [] {
      DriveLikeCode(DriveOne(s, acts[0]), Perform(r, acts[0]), acts[1..]);
    }
  }

  /** The same for a driver between steps. */
  lemma {:induction false} DriveSpawns(s: Sys, before: seq<Act>, isLocal: bool, after: seq<Act>)
    ensures var r, id := DriveAll(s, before + [SpawnVia(isLocal)] + after).rt, s.rt.nextTaskId + SpawnCount(before);
            id in QueueOf(r, isLocal) <==> CancelVia(isLocal, id) !in after
  {
    DriveLikeCode(s, s, before + [SpawnVia(isLocal)] + after);
    SpawnedWaits(s, before, isLocal, after);
  }

  // ----- one request along a run -----

  /** The move's code withdraws the request. */
  ghost predicate WithdrawnIn(s: Sys, m: Move, id: TaskId)
    requires Running(s)
  {
    match m
    case Turn(l) => WithdrawnBy(s, l, id)
    case Drive(acts) => Withdraws(acts, id)
  }

  /**
   * Follows one waiting request through a run: no time passes and the simulation is not over while it
   * waits, until a round installs and polls its task, or a handle withdraws it.
   */
  ghost predicate HonoursSpawn(s: Sys, ms: seq<Move>, id: TaskId)
    decreases |ms|
  {
    && Running(s) && Fresh(s.rt, id)
    && (ms != [] ==>
          var m, r := ms[0], Make(s, ms[0]);
          && r.k.clock == s.k.clock
          && (|| (m.Turn? && InstalledBy(s, m.l, id))
              || WithdrawnIn(s, m, id)
              || HonoursSpawn(r, ms[1..], id)))
  }

  lemma {:induction false} DriveKeepsRequest(s: Sys, acts: seq<Act>, id: TaskId)
    requires Fresh(s.rt, id)
    ensures Withdraws(acts, id) || Fresh(DriveAll(s, acts).rt, id)
  {
    PerformAllSpawns(s, acts, id);
    DriveLikeCode(s, s, acts);
  }

  /** For any policies and any code, if drivers leave no request without a poll. */
  lemma {:induction false} SpawnsAreHonoured(s: Sys, ms: seq<Move>, id: TaskId)
    requires ReadyOk(s.rt) && SpawnsSeen(s) && AlwaysCovered(s, ms) && Fresh(s.rt, id)
    ensures HonoursSpawn(s, ms, id)
    decreases |ms|
  {
    WaitingMeansRunning(s);
    if ms != [] {
      match ms[0] {
        case Turn(l) =>
          SpawnStep(s, l, id);
          StepSeesSpawns(s, l);
        case Drive(acts) =>
          DriveKeepsRequest(s, acts, id);
          DriveSeesSpawns(s, acts);
      }
      MakeReady(s, ms[0]);
      if Fresh(Make(s, ms[0]).rt, id) {
        SpawnsAreHonoured(Make(s, ms[0]), ms[1..], id);
      }
    }
  }

  lemma {:induction false} StepKeepsSound(s: Sys, l: Label)
    requires ReadyOk(s.rt) && SpawnsSeen(s)
    ensures ReadyOk(Step(s, l).rt) && SpawnsSeen(Step(s, l))
  {
    StepReady(s, l);
    StepSeesSpawns(s, l);
  }

  /**
   * So a task spawned through a handle by code running in a step, and not withdrawn in it, is polled
   * before time moves on, in every run.
   */
  lemma {:induction false} SpawnedIsHonoured(
      s: Sys, l: Label, before: seq<Act>, isLocal: bool, after: seq<Act>, id: TaskId, ms: seq<Move>)
    requires ReadyOk(s.rt) && SpawnsSeen(s) && AlwaysCovered(Step(s, l), ms)
    requires Performed(s, l) == before + [SpawnVia(isLocal)] + after && id == s.rt.nextTaskId + SpawnCount(before)
    requires CancelVia(isLocal, id) !in after
    ensures HonoursSpawn(Step(s, l), ms, id)
  {
    StepSpawns(s, l, before, isLocal, after, id);
    StepKeepsSound(s, l);
    SpawnsAreHonoured(Step(s, l), ms, id);
  }
}
