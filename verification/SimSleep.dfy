/** `sim_sleep`: a future that waits for simulated time by registering a timer with the runtime. */
module SimSleep {
  import opened SimTime
  import opened Options
  import opened Ids
  import opened Runtime
  import opened RuntimeSteps
  import opened RuntimePolling
  import opened RuntimeCode
  import opened RuntimeSpawns
  import opened RuntimeTimers
  import opened KernelInvariants
  import opened KernelRuns
  import Kernel

  datatype Sleep = Sleep(target: Option<Time>, duration: Time, timerScheduled: bool)

  /** The end of the sleep is fixed when it is first polled. */
  function TargetOf(sl: Sleep, now: Time): Time {
    if sl.target.Some? then sl.target.value else Plus(now, sl.duration)
  }

  function SetTimer(key: Uuid, id: TaskId, target: Time): Kernel.Deferred<Message> {
    Kernel.Deferred(0, key, ToRuntime(RegisterTimer(id, target)))
  }

  function UnsetTimer(key: Uuid, id: TaskId, target: Time): Kernel.Deferred<Message> {
    Kernel.Deferred(0, key, ToRuntime(CancelTimer(id, target)))
  }

  /** The runtime and the task it is polling; futures polled or dropped outside of that have none. */
  datatype PollContext = PollContext(key: Uuid, task: TaskId)

  function SetsTimer(cx: Option<PollContext>, target: Time): seq<Act> {
    match cx
    case None => []
    case Some(c) => [Sched(Kernel.Defer(SetTimer(c.key, c.task, target)))]
  }

  /** One poll: the sleep afterwards, and what the poll answers and does. */
  function PollSleep(sl: Sleep, cx: Option<PollContext>, now: Time): (Sleep, PollWork) {
    var target := TargetOf(sl, now);
    if now >= target then (Sleep(Some(target), sl.duration, false), PollWork(true, []))
    else if !sl.timerScheduled then (Sleep(Some(target), sl.duration, true), PollWork(false, SetsTimer(cx, target)))
    else (Sleep(Some(target), sl.duration, true), PollWork(false, []))
  }

  /** A poll by a task of the runtime. */
  function PollBy(sl: Sleep, key: Uuid, id: TaskId, now: Time): (Sleep, PollWork) {
    PollSleep(sl, Some(PollContext(key, id)), now)
  }

  /** Dropping a sleep whose timer is set asks for the timer to be withdrawn, but only while a task is polled. */
  function DropSleep(sl: Sleep, cx: Option<PollContext>): seq<Act> {
    if sl.timerScheduled && sl.target.Some? && cx.Some?
    then [Sched(Kernel.Defer(UnsetTimer(cx.value.key, cx.value.task, sl.target.value)))]
    else []
  }

  /** However often a pending sleep is polled, it sets exactly one timer, and keeps its target. */
  lemma {:induction false} PendingSleepSetsOneTimer(sl: Sleep, key: Uuid, id: TaskId, first: Time, later: Time)
    requires !PollBy(sl, key, id, first).1.ready
    ensures var (s1, w1) := PollBy(sl, key, id, first);
            var (s2, w2) := PollBy(s1, key, id, later);
            && s1 == Sleep(Some(TargetOf(sl, first)), sl.duration, true)
            && (w1.acts != [] <==> !sl.timerScheduled)
            && w2.acts == []
            && (w2.ready <==> later >= TargetOf(sl, first))
            && (!w2.ready ==> s2 == s1)
            && (w2.ready ==> forall cx :: DropSleep(s2, cx) == [])
  {}

  /** A sleep over at once is ready at its first poll and touches no timer. */
  lemma {:induction false} ZeroSleepIsReady(duration: Time, cx: Option<PollContext>, now: Time)
    ensures var w := PollSleep(Sleep(None, duration, false), cx, now).1;
            (w.ready <==> duration == 0 || now == MAX_NANOS) && (w.ready ==> w.acts == [])
  {}

  class SleepFuture {
    var targetTime: Option<Time>
    const duration: Time
    var timerScheduled: bool

    ghost function Now(): Sleep
      reads this
    {
      Sleep(targetTime, duration, timerScheduled)
    }

    /** `sim_sleep`. */
    constructor For(duration: Time)
      ensures Now() == Sleep(None, duration, false)
    {
      targetTime, this.duration, timerScheduled := None, duration, false;
    }

    /** `sim_sleep_until`. */
    constructor Until(target: Time)
      ensures Now() == Sleep(Some(target), 0, false)
    {
      targetTime, duration, timerScheduled := Some(target), 0, false;
    }

    /**
     * Outside event processing there is no current time, and the future just stays pending. Polled
     * by something else than the runtime it takes its timer for set, though nobody set it.
     */
    method Poll(currentTime: Option<Time>, cx: Option<PollContext>) returns (w: PollWork)
      modifies this
      ensures currentTime.None? ==> Now() == old(Now()) && w == PollWork(false, [])
      ensures currentTime.Some? ==> (Now(), w) == PollSleep(old(Now()), cx, currentTime.value)
      ensures currentTime.Some? ==>
              && targetTime == Some(if old(targetTime).Some? then old(targetTime).value
                                    else Saturate(currentTime.value + duration))
              && (w.ready <==> currentTime.value >= targetTime.value) && timerScheduled == !w.ready
              && w.acts == if w.ready || old(timerScheduled) || cx.None? then []
                           else [Sched(Kernel.Defer(SetTimer(cx.value.key, cx.value.task, targetTime.value)))]
    {
      if currentTime.None? {
        return PollWork(false, []);
      }
      if targetTime.None? {
        targetTime := Some(Plus(currentTime.value, duration));
      }
      var target := targetTime.value;
      if currentTime.value >= target {
        timerScheduled := false;
        return PollWork(true, []);
      } else if !timerScheduled {
        var acts := RegisterTimerAt(target, cx);
        timerScheduled := true;
        return PollWork(false, acts);
      } else {
        return PollWork(false, []);
      }
    }

    /** The timer's event for the task being polled, if one is. */
    method RegisterTimerAt(deadline: Time, cx: Option<PollContext>) returns (acts: seq<Act>)
      ensures acts == SetsTimer(cx, deadline)
    {
      acts := [];
      if cx.Some? {
        acts := [Sched(Kernel.Defer(SetTimer(cx.value.key, cx.value.task, deadline)))];
      }
    }

    method Drop(cx: Option<PollContext>) returns (acts: seq<Act>)
      ensures acts == DropSleep(Now(), cx)
      ensures acts == if timerScheduled && targetTime.Some? && cx.Some?
                      then [Sched(Kernel.Defer(UnsetTimer(cx.value.key, cx.value.task, targetTime.value)))] else []
    {
      acts := [];
      if timerScheduled {
        if targetTime.Some? && cx.Some? {
          acts := [Sched(Kernel.Defer(UnsetTimer(cx.value.key, cx.value.task, targetTime.value)))];
        }
      }
    }
  }

  // ----- a sleeping task -----

  ghost predicate IsSetTimerNow(e: Kernel.Entry<Message>, s: Sys, id: TaskId, target: Time) {
    IsEvent(e, s.key, RegisterTimer(id, target)) && e.time == s.k.clock
  }

  /** The timer is registered, or the event that registers it is queued for the current instant. */
  ghost predicate Asleep(s: Sys, id: TaskId, target: Time) {
    && id in s.rt.tasks && s.k.clock <= target
    && (Registered(s, id, target) || (s.k.clock < target && exists e <- s.k.events :: IsSetTimerNow(e, s, id, target)))
  }

  ghost predicate Good(s: Sys) {
    NotPast(s) && TimerOk(s) && ReadyOk(s.rt)
  }

  /**
   * Installing a runtime that has no timers yet, at any time and beside whatever else is scheduled,
   * establishes what the results about runs need.
   */
  lemma {:induction false} InstalledIsGood(s: Sys)
    requires NotPast(s) && ReadyOk(s.rt) && s.rt.timers == map[] && s.rt.nextTimerDeadline == None
    ensures Good(Installed(s)) && SpawnsSeen(Installed(s))
  {
    InstalledSeesSpawns(s);
  }

  lemma {:induction false} MakeGood(s: Sys, m: Move)
    requires Good(s)
    ensures Good(Make(s, m))
  {
    MakeTimers(s, m);
    MakeReady(s, m);
  }

  /** In every reachable state of every run. */
  lemma {:induction false} GoodAlways(s: Sys, ms: seq<Move>)
    requires Good(s)
    ensures Good(Run(s, ms))
    decreases |ms|
  {
    if ms != [] {
      MakeGood(s, ms[0]);
      GoodAlways(Make(s, ms[0]), ms[1..]);
    }
  }

  /**
   * From a scheduler and a runtime just constructed, through any setup by the driver, spawns
   * included, to the installation and along any run: everything the results about runs need.
   */
  lemma {:induction false} SetUpIsGood(s: Sys, setup: seq<Act>, ms: seq<Move>)
    requires s.k.events == {} && ReadyOk(s.rt) && s.rt.timers == map[] && s.rt.nextTimerDeadline == None
    ensures var start := Installed(DriveAll(s, setup));
            Good(Run(start, ms)) && (AlwaysCovered(start, ms) ==> SpawnsSeen(Run(start, ms)))
  {
    var r := DriveAll(s, setup);
    DriveNotPast(s, setup);
    DriveReady(s, setup);
    InstalledIsGood(r);
    GoodAlways(Installed(r), ms);
    if AlwaysCovered(Installed(r), ms) {
      NoLostSpawn(Installed(r), ms);
    }
  }

  /** A task stays until its future is done or it is cancelled. */
  lemma {:induction false} TaskSurvives(s: Sys, l: Label, id: TaskId)
    requires ReadyOk(s.rt) && Running(s) && id in s.rt.tasks
    requires !IsEvent(ChosenEntry(s, l), s.key, Cancel(id))
    requires id in PolledBy(s, l) ==> !l.polls(id).ready
    ensures id in Step(s, l).rt.tasks
  {
    var e := ChosenEntry(s, l);
    if IsFor(e, s.key) {
      EventKeepsTask(Advanced(s, l), e.payload.event, l, id);
    }
  }

  lemma {:induction false} EventKeepsTask(s: Sys, e: RuntimeEvent, l: Label, id: TaskId)
    requires ReadyOk(s.rt) && id in s.rt.tasks && e != Cancel(id)
    requires id in ProcessEvent(s, e, 0, AnswerFrom(l.readyPicks), l.polls).2 ==> !l.polls(id).ready
    ensures id in ProcessEvent(s, e, 0, AnswerFrom(l.readyPicks), l.polls).0.rt.tasks
  {
    if Polls(e) {
      EventPollsOnce(s, e, 0, AnswerFrom(l.readyPicks), l.polls);
    }
  }

  /** A component entry due now stops the clock, and stays queued until it is processed. */
  lemma {:induction false} DueNowStays(s: Sys, l: Label, t: Kernel.Entry<Message>)
    requires NotPast(s) && t in s.k.events && t.ComponentEvent? && t.time == s.k.clock
    ensures Running(s) && Step(s, l).k.clock == s.k.clock && Step(s, l).key == s.key
    ensures t != ChosenEntry(s, l) ==> t in Step(s, l).k.events
  {
    assert t in Kernel.Live(s.k);
    PopStep(s, l);
    var q := ProcessEntry(Advanced(s, l), ChosenEntry(s, l), l);
    EntryFollows(Advanced(s, l), ChosenEntry(s, l), l);
    DrainStep(q);
  }

  lemma {:induction false} SettingStep(s: Sys, l: Label, id: TaskId, target: Time)
    requires Good(s) && id in s.rt.tasks && s.k.clock < target
    requires exists e <- s.k.events :: IsSetTimerNow(e, s, id, target)
    requires id in PolledBy(s, l) && Step(s, l).k.clock < target ==> !l.polls(id).ready
    ensures Running(s) && Step(s, l).k.clock == s.k.clock
    ensures Withdrawn(s, l, id, target) || Asleep(Step(s, l), id, target)
  {
    var t :| t in s.k.events && IsSetTimerNow(t, s, id, target);
    DueNowStays(s, l, t);
    if !Withdrawn(s, l, id, target) {
      TaskSurvives(s, l, id);
      if ChosenEntry(s, l) == t {
        RegistersTimer(s, l, id, target);
      } else {
        assert IsSetTimerNow(t, Step(s, l), id, target);
      }
    }
  }

  lemma {:induction false} RegistersTimer(s: Sys, l: Label, id: TaskId, target: Time)
    requires id in s.rt.tasks && Running(s) && IsEvent(ChosenEntry(s, l), s.key, RegisterTimer(id, target))
    ensures Registered(Step(s, l), id, target)
  {
    StepHandles(s, l, RegisterTimer(id, target));
    assert Registered(Register(Advanced(s, l), id, target), id, target);
  }

  /** One step of a sleeping task: it keeps sleeping, is withdrawn, or is polled at its target exactly. */
  lemma {:induction false} SleepStep(s: Sys, l: Label, id: TaskId, target: Time)
    requires Good(s) && Asleep(s, id, target)
    requires id in PolledBy(s, l) && Step(s, l).k.clock < target ==> !l.polls(id).ready
    ensures Running(s) && Step(s, l).k.clock <= target
    ensures Withdrawn(s, l, id, target) || (id in PolledBy(s, l) && Step(s, l).k.clock == target)
            || Asleep(Step(s, l), id, target)
  {
    if Registered(s, id, target) {
      TimerStep(s, l, id, target);
      if !Withdrawn(s, l, id, target) && !(id in PolledBy(s, l) && Step(s, l).k.clock == target) {
        TaskSurvives(s, l, id);
      }
    } else {
      SettingStep(s, l, id, target);
    }
  }

  /** Whenever the task is polled, it is still pending if its sleep is. */
  ghost predicate Awaits(s: Sys, ms: seq<Move>, id: TaskId, sl: Sleep)
    decreases |ms|
  {
    ms != [] ==>
      var m, r := ms[0], Make(s, ms[0]);
      && (m.Turn? && id in PolledBy(s, m.l) && m.l.polls(id).ready ==> PollBy(sl, s.key, id, r.k.clock).1.ready)
      && Awaits(r, ms[1..], id, sl)
  }

  /**
   * Follows a sleeping task through a run: it never oversleeps, the simulation is not over before it
   * is woken, and it is polled when the clock is exactly at its target, unless it is withdrawn first.
   */
  ghost predicate WakesExactly(s: Sys, ms: seq<Move>, id: TaskId, target: Time)
    decreases |ms|
  {
    && s.k.clock <= target && Running(s) && id in s.rt.tasks
    && (ms != [] ==>
          var m, r := ms[0], Make(s, ms[0]);
          && r.k.clock <= target
          && (|| (m.Turn? && Withdrawn(s, m.l, id, target))
              || (m.Turn? && id in PolledBy(s, m.l) && r.k.clock == target)
              || WakesExactly(r, ms[1..], id, target)))
  }

  lemma {:induction false} DriveAsleep(s: Sys, acts: seq<Act>, id: TaskId, target: Time)
    requires Asleep(s, id, target)
    ensures Asleep(DriveAll(s, acts), id, target)
  {
    DriveFollows(s, acts);
    if !Registered(s, id, target) {
      var e :| e in s.k.events && IsSetTimerNow(e, s, id, target);
      assert e in DriveAll(s, acts).k.events && IsSetTimerNow(e, DriveAll(s, acts), id, target);
    }
  }

  lemma {:induction false} SleepersWake(s: Sys, ms: seq<Move>, id: TaskId, sl: Sleep)
    requires sl.target.Some? && Good(s) && Asleep(s, id, sl.target.value) && Awaits(s, ms, id, sl)
    ensures WakesExactly(s, ms, id, sl.target.value)
    decreases |ms|
  {
    var target := sl.target.value;
    SleepingMeansRunning(s, id, target);
    if ms != [] {
      var m, r := ms[0], Make(s, ms[0]);
      match m {
        case Turn(l) => SleepStep(s, l, id, target);
        case Drive(acts) => DriveAsleep(s, acts, id, target);
      }
      MakeGood(s, m);
      if Asleep(r, id, target) {
        SleepersWake(r, ms[1..], id, sl);
      }
    }
  }

  lemma {:induction false} SleepingMeansRunning(s: Sys, id: TaskId, target: Time)
    requires TimerOk(s) && Asleep(s, id, target)
    ensures Running(s)
  {
    if Registered(s, id, target) {
      TimerMeansRunning(s, id, target);
    } else {
      var e :| e in s.k.events && IsSetTimerNow(e, s, id, target);
      assert e in Kernel.Live(s.k);
    }
  }

  // ----- falling asleep -----

  lemma {:induction false} PerformAllDefers(s: Sys, acts: seq<Act>, d: Kernel.Deferred<Message>)
    requires Sched(Kernel.Defer(d)) in acts
    ensures d in PerformAll(s, acts).k.deferred
    decreases |acts|
  {
    var s1 := Perform(s, acts[0]);
    if acts[0] == Sched(Kernel.Defer(d)) {
      PerformAllIssues(s1, acts[1..]);
      IssuesFollows(s1, PerformAll(s1, acts[1..]));
      assert d in s1.k.deferred;
    } else {
      PerformAllDefers(s1, acts[1..], d);
    }
  }

  lemma {:induction false} ActsOfEach(ids: seq<TaskId>, polls: Futures, id: TaskId, a: Act)
    requires id in ids && a in polls(id).acts
    ensures a in ActsOf(ids, polls)
    decreases |ids|
  {
    if id != ids[0] {
      ActsOfEach(ids[1..], polls, id, a);
    }
  }

  lemma {:induction false} RoundDefers(s: Sys, e: RuntimeEvent, l: Label, id: TaskId, d: Kernel.Deferred<Message>)
    requires Polls(e) && id in ProcessEvent(s, e, 0, AnswerFrom(l.readyPicks), l.polls).2
    requires Sched(Kernel.Defer(d)) in l.polls(id).acts
    ensures d in ProcessEvent(s, e, 0, AnswerFrom(l.readyPicks), l.polls).0.k.deferred
  {
    var polled := Handled(s, e, 0, AnswerFrom(l.readyPicks), l.polls).2;
    var start, end := HandledPerforms(s, e, 0, AnswerFrom(l.readyPicks), l.polls);
    ActsOfEach(polled, l.polls, id, Sched(Kernel.Defer(d)));
    PerformAllDefers(start, ActsOf(polled, l.polls), d);
    IssuesFollows(end, Handled(s, e, 0, AnswerFrom(l.readyPicks), l.polls).0);
  }

  lemma {:induction false} PollDefersTimer(sl: Sleep, key: Uuid, id: TaskId, now: Time, acts: seq<Act>)
    requires var w := PollBy(sl, key, id, now).1; !sl.timerScheduled && !w.ready && forall a <- w.acts :: a in acts
    ensures Sched(Kernel.Defer(SetTimer(key, id, TargetOf(sl, now)))) in acts
  {
    var a := Sched(Kernel.Defer(SetTimer(key, id, TargetOf(sl, now))));
    assert PollBy(sl, key, id, now).1.acts == [a];
    assert a in [a];
  }

  /** The task's poll ended pending and did, among whatever else, what the given poll of a sleep does. */
  ghost predicate PollsSleep(s: Sys, l: Label, id: TaskId, sl: Sleep) {
    var w := PollBy(sl, s.key, id, Step(s, l).k.clock).1;
    id in PolledBy(s, l) && !l.polls(id).ready && forall a <- w.acts :: a in l.polls(id).acts
  }

  /** A poll that starts a pending sleep, whatever else it does, puts the task to sleep until its target. */
  lemma {:induction false} FallsAsleep(s: Sys, l: Label, id: TaskId, sl: Sleep)
    requires Good(s) && Running(s) && PollsSleep(s, l, id, sl)
    requires !sl.timerScheduled && !PollBy(sl, s.key, id, Step(s, l).k.clock).1.ready
    ensures Asleep(Step(s, l), id, TargetOf(sl, Step(s, l).k.clock))
  {
    var p := Advanced(s, l);
    var e := ChosenEntry(s, l);
    var q := ProcessEntry(p, e, l);
    PopStep(s, l);
    StepReady(s, l);
    EntryFollows(p, e, l);
    DrainStep(q);
    var target := TargetOf(sl, q.k.clock);
    var d := SetTimer(s.key, id, target);
    PollDefersTimer(sl, s.key, id, q.k.clock, l.polls(id).acts);
    EventPollsOnce(p, e.payload.event, 0, AnswerFrom(l.readyPicks), l.polls);
    RoundDefers(p, e.payload.event, l, id, d);
    var t :| t in Step(s, l).k.events && IsWakeFor(t, d, q.k.clock);
    assert IsSetTimerNow(t, Step(s, l), id, target);
  }

  /**
   * A task that starts `sim_sleep(duration)` when the clock is at t0, alone or among other things it
   * does in that poll, is polled at exactly t0 plus the duration, in every run, under any policies
   * and whatever else happens. Sleeps of no length do not get here (ZeroSleepIsReady).
   */
  lemma {:induction false} SleepIsExact(s: Sys, l: Label, ms: seq<Move>, id: TaskId, duration: Time)
    requires Good(s) && Running(s) && PollsSleep(s, l, id, Sleep(None, duration, false))
    requires var t0 := Step(s, l).k.clock;
             var (sl, w) := PollBy(Sleep(None, duration, false), s.key, id, t0);
             !w.ready && Awaits(Step(s, l), ms, id, sl)
    ensures WakesExactly(Step(s, l), ms, id, Plus(Step(s, l).k.clock, duration))
  {
    var t0 := Step(s, l).k.clock;
    FallsAsleep(s, l, id, Sleep(None, duration, false));
    MakeGood(s, Turn(l));
    SleepersWake(Step(s, l), ms, id, PollBy(Sleep(None, duration, false), s.key, id, t0).0);
  }

  // ----- dropping a sleep -----

  /** While the runtime polls the task, dropping its unfinished sleep queues the withdrawal for this instant. */
  lemma {:induction false} DropDefersWithdrawal(s: Sys, l: Label, id: TaskId, sl: Sleep)
    requires Good(s) && Running(s) && id in PolledBy(s, l) && sl.timerScheduled && sl.target.Some?
    requires forall a <- DropSleep(sl, Some(PollContext(s.key, id))) :: a in l.polls(id).acts
    ensures exists e <- Step(s, l).k.events ::
              IsEvent(e, s.key, CancelTimer(id, sl.target.value)) && e.time == Step(s, l).k.clock
  {
    var p := Advanced(s, l);
    var e := ChosenEntry(s, l);
    var q := ProcessEntry(p, e, l);
    var d := UnsetTimer(s.key, id, sl.target.value);
    PopStep(s, l);
    StepReady(s, l);
    EntryFollows(p, e, l);
    DrainStep(q);
    assert Sched(Kernel.Defer(d)) in DropSleep(sl, Some(PollContext(s.key, id)));
    RoundDefers(p, e.payload.event, l, id, d);
    var t :| t in Step(s, l).k.events && IsWakeFor(t, d, q.k.clock);
    assert IsEvent(t, s.key, CancelTimer(id, sl.target.value));
  }

  /**
   * The step that processes the withdrawal removes the registration; from then on it stays away
   * exactly as long as no event registers that deadline for the live task again.
   */
  lemma {:induction false} WithdrawalRemoves(s: Sys, l: Label, id: TaskId, d: Time)
    requires Running(s) && IsEvent(ChosenEntry(s, l), s.key, CancelTimer(id, d))
    ensures !Registered(Step(s, l), id, d)
  {
    StepHandles(s, l, CancelTimer(id, d));
    UnregisterWithdraws(Advanced(s, l), id, d);
  }

  lemma {:induction false} WithdrawnForGood(s: Sys, l: Label, id: TaskId, d: Time, ms: seq<Move>)
    requires Running(s) && IsEvent(ChosenEntry(s, l), s.key, CancelTimer(id, d))
    requires NeverRegisters(Step(s, l), ms, id, d)
    ensures !Registered(Run(Step(s, l), ms), id, d)
  {
    WithdrawalRemoves(s, l, id, d);
    StaysUnregistered(Step(s, l), ms, id, d);
  }

  /**
   * With FIFO tie-breaks a withdrawal is never early: whatever is still queued after it, a
   * registration in particular, was scheduled after it.
   */
  lemma {:induction false} FifoWithdrawsLast(s: Sys, l: Label, id: TaskId, d: Time)
    requires Idle(s.k) && Running(s) && l.pick == 0 && IsEvent(ChosenEntry(s, l), s.key, CancelTimer(id, d))
    ensures !Registered(Step(s, l), id, d)
    ensures forall e <- Step(s, l).k.events :: Kernel.Before(ChosenEntry(s, l), e)
  {
    WithdrawalRemoves(s, l, id, d);
    var kl := StepIsKernelStep(s, l);
    FifoStep(s.k, kl);
  }

  /** Another policy may process the withdrawal first; then the registration of the same instant stays behind. */
  lemma {:induction false} EarlyWithdrawalIsLost(s: Sys, first: Label, r: Sys, second: Label, id: TaskId, d: Time)
    requires Running(s) && IsEvent(ChosenEntry(s, first), s.key, CancelTimer(id, d)) && id in s.rt.tasks
    requires r == Step(s, first)
    requires Running(r) && IsEvent(ChosenEntry(r, second), s.key, RegisterTimer(id, d))
    ensures Registered(Step(r, second), id, d)
  {
    WithdrawalRemoves(s, first, id, d);
    WithdrawalKeepsTasks(s, first, id, d);
    OnlyItsEventRegisters(r, second, id, d);
  }

  lemma {:induction false} WithdrawalKeepsTasks(s: Sys, l: Label, id: TaskId, d: Time)
    requires Running(s) && IsEvent(ChosenEntry(s, l), s.key, CancelTimer(id, d))
    ensures Step(s, l).rt.tasks == s.rt.tasks
  {
    StepHandles(s, l, CancelTimer(id, d));
  }
}
