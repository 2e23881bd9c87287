/** Timers are exact: the clock never passes a registered deadline, and its task is polled when the clock is there. */
module RuntimeTimers {
  import opened SimTime
  import opened Options
  import opened Runtime
  import opened RuntimeSteps
  import opened RuntimePolling
  import Kernel

  function Max(a: Time, b: Time): Time { if a < b then b else a }

  ghost predicate IsTickBy(e: Kernel.Entry<Message>, s: Sys, t: Time) {
    IsEvent(e, s.key, TimerTick) && e.time <= Max(t, s.k.clock)
  }

  /** A tick is queued no later than time t (or now, if t has passed). */
  ghost predicate TickBy(s: Sys, t: Time) {
    exists e <- s.k.events :: IsTickBy(e, s, t)
  }

  /** The deadline the runtime believes to be next has its tick. */
  ghost predicate Mirrored(s: Sys) {
    s.rt.nextTimerDeadline.Some? ==> TickBy(s, s.rt.nextTimerDeadline.value)
  }

  /** Each deadline in the map is one that some task is registered for. */
  ghost predicate Populated(timers: Timers) {
    forall d <- timers :: timers[d] != []
  }

  ghost predicate TimerOk(s: Sys) {
    && Mirrored(s)
    && s.rt.nextTimerDeadline == Earliest(s.rt.timers)
    && Populated(s.rt.timers)
  }

  ghost predicate Registered(s: Sys, id: TaskId, d: Time) {
    d in s.rt.timers && id in s.rt.timers[d]
  }

  lemma {:induction false} TickByKept(s: Sys, r: Sys, t: Time)
    requires TickBy(s, t) && r.key == s.key && s.k.clock <= r.k.clock
    requires forall e <- s.k.events :: IsEvent(e, s.key, TimerTick) ==> e in r.k.events
    ensures TickBy(r, t)
  {
    var e :| e in s.k.events && IsTickBy(e, s, t);
    assert e in r.k.events && IsTickBy(e, r, t);
  }

  lemma {:induction false} MirroredKept(s: Sys, r: Sys)
    requires Mirrored(s) && r.rt.nextTimerDeadline == s.rt.nextTimerDeadline && r.key == s.key && s.k.clock <= r.k.clock
    requires forall e <- s.k.events :: IsEvent(e, s.key, TimerTick) ==> e in r.k.events
    ensures Mirrored(r)
  {
    if s.rt.nextTimerDeadline.Some? {
      TickByKept(s, r, s.rt.nextTimerDeadline.value);
    }
  }

  /**
   * Re-arming establishes the timer invariant, leaving stale ticks behind: nothing is scheduled if
   * the least deadline is the remembered one or there is none; otherwise one tick, at exactly that
   * deadline, or now if it has passed.
   */
  lemma {:induction false} ScheduleTickArms(s: Sys)
    requires Mirrored(s) && Populated(s.rt.timers)
    ensures var r := ScheduleTick(s); TimerOk(r) && r.rt.timers == s.rt.timers
    ensures var next, r := Earliest(s.rt.timers), ScheduleTick(s);
            r.k.events == if next == s.rt.nextTimerDeadline || next.None? then s.k.events
            else s.k.events + {Kernel.ComponentEvent(s.k.nextEvent + 1,
                   if next.value < s.k.clock then s.k.clock else next.value, s.key, ToRuntime(TimerTick))}
  {
    var r := ScheduleTick(s);
    var next := Earliest(s.rt.timers);
    if next != s.rt.nextTimerDeadline && next.Some? {
      var e :=
        Kernel.ComponentEvent(s.k.nextEvent + 1, Plus(s.k.clock, Since(next.value, s.k.clock)), s.key,
          ToRuntime(TimerTick));
      assert e in r.k.events && IsTickBy(e, r, next.value);
    }
  }

  lemma {:induction false} EarliestByKeys(a: Timers, b: Timers)
    requires a.Keys == b.Keys
    ensures Earliest(a) == Earliest(b)
  {}

  /** While a timer is registered the simulation is not over. */
  lemma {:induction false} TimerMeansRunning(s: Sys, id: TaskId, d: Time)
    requires TimerOk(s) && Registered(s, id, d)
    ensures exists e <- Kernel.Live(s.k) :: e.time <= Max(d, s.k.clock)
    ensures Running(s)
  {
    var least := Earliest(s.rt.timers).value;
    var e :| e in s.k.events && IsTickBy(e, s, least);
    assert e in Kernel.Live(s.k);
  }

  /** The clock cannot pass a registered deadline in one step. */
  lemma {:induction false} TimerBoundsClock(s: Sys, l: Label, id: TaskId, d: Time)
    requires NotPast(s) && TimerOk(s) && Registered(s, id, d)
    ensures Running(s) && Advanced(s, l).k.clock <= Max(d, s.k.clock)
  {
    TimerMeansRunning(s, id, d);
    PopStep(s, l);
  }

  // ----- one event -----

  /** Processing any event keeps the timer invariant. */
  lemma {:induction false} HandledTimers<S>(s: Sys, e: RuntimeEvent, ps: S, answer: ReadyAnswer<S>, polls: Futures)
    requires Populated(s.rt.timers) && (!e.TimerTick? ==> TimerOk(s))
    ensures TimerOk(Handled(s, e, ps, answer, polls).0)
  {
    match e
    case Poll => PollReadyTimers(s, ps, answer, polls);
    case Wake(id) =>
      var s1 := s.(rt := WakeTask(s.rt, id));
      MirroredKept(s, s1);
      PollReadyTimers(s1, ps, answer, polls);
    case Cancel(id) => CancelTimers(s, id, polls(id).acts);
    case RegisterTimer(id, d) =>
      MirroredKept(s, s.(rt := AddTimer(s.rt, id, d)));
      ScheduleTickArms(s.(rt := AddTimer(s.rt, id, d)));
    case CancelTimer(id, d) =>
      var s1 := s.(rt := DropTimer(s.rt, id, d));
      MirroredKept(s, s1);
      if d in s.rt.timers && d !in s1.rt.timers {
        ScheduleTickArms(s1);
      } else {
        EarliestByKeys(s.rt.timers, s1.rt.timers);
      }
    case TimerTick =>
      var s1 := s.(rt := WakeDue(s.rt.(nextTimerDeadline := None), s.k.clock));
      ScheduleTickArms(s1);
      PollReadyTimers(ScheduleTick(s1), ps, answer, polls);
  }

  lemma {:induction false} CancelTimers(s: Sys, id: TaskId, acts: seq<Act>)
    requires TimerOk(s)
    ensures TimerOk(CancelTask(s, id, acts))
  {
    var r := DropFuture(s, id, acts);
    var q := r.(rt := DropTimers(r.rt, id));
    DropFutureIssues(s, id, acts);
    IssuesFollows(s, r);
    MirroredKept(s, q);
    ScheduleTickArms(q);
  }

  lemma {:induction false} PollReadyTimers<S>(s: Sys, ps: S, answer: ReadyAnswer<S>, polls: Futures)
    requires TimerOk(s)
    ensures var r := PollReady(s, ps, answer, polls).0; TimerOk(r) && r.rt.timers == s.rt.timers
  {
    var rt := Install(s.rt);
    PollAllTimers(s.(rt := rt.(readyQueue := [])), ps, answer, rt.readyQueue, polls);
    PollReadyIssues(s, ps, answer, polls);
    IssuesFollows(s, PollReady(s, ps, answer, polls).0);
    MirroredKept(s, PollReady(s, ps, answer, polls).0);
  }

  lemma {:induction false} PollAllTimers<S>(s: Sys, ps: S, answer: ReadyAnswer<S>, left: seq<TaskId>, polls: Futures)
    ensures var r := PollAll(s, ps, answer, left, polls).0.rt;
      r.timers == s.rt.timers && r.nextTimerDeadline == s.rt.nextTimerDeadline
    decreases |left|
  {
    if left != [] {
      var (ps', pick) := answer(ps, s.k.clock, left);
      var i := Vectors.Clamp(pick, |left|);
      PollAllTimers(PollOne(s, left[i], polls), ps', answer, Vectors.SwapRemove(left, i), polls);
    }
  }

  lemma {:induction false} EntryTimers(s: Sys, e: Kernel.Entry<Message>, l: Label)
    requires Populated(s.rt.timers) && (!IsEvent(e, s.key, TimerTick) ==> TimerOk(s))
    ensures TimerOk(ProcessEntry(s, e, l))
  {
    EntryFollows(s, e, l);
    if IsFor(e, s.key) {
      var r := Handled(s, e.payload.event, 0, AnswerFrom(l.readyPicks), l.polls).0;
      HandledTimers(s, e.payload.event, 0, AnswerFrom(l.readyPicks), l.polls);
      MirroredKept(r, ProcessEntry(s, e, l));
    } else {
      MirroredKept(s, ProcessEntry(s, e, l));
    }
  }

  /** Every step keeps the timer invariant, whatever policies answer and code does. */
  lemma {:induction false} StepTimers(s: Sys, l: Label)
    requires NotPast(s) && TimerOk(s)
    ensures NotPast(Step(s, l)) && TimerOk(Step(s, l))
  {
    StepNotPast(s, l);
    if Running(s) {
      PopStep(s, l);
      var p := Advanced(s, l);
      var e := ChosenEntry(s, l);
      if !IsEvent(e, s.key, TimerTick) {
        MirroredKept(s, p);
      }
      EntryFollows(p, e, l);
      EntryTimers(p, e, l);
      var q := ProcessEntry(p, e, l);
      DrainStep(q);
      MirroredKept(q, Step(s, l));
    } else {
      MirroredKept(s, Step(s, l));
    }
  }

  // ----- one registration over a run -----

  /** The step processes an event that withdraws the registration. */
  ghost predicate Withdrawn(s: Sys, l: Label, id: TaskId, d: Time)
    requires Running(s)
  {
    var e := ChosenEntry(s, l);
    IsEvent(e, s.key, CancelTimer(id, d)) || IsEvent(e, s.key, Cancel(id))
  }

  /** The step is a tick at or after the deadline; the task, if it is live, is polled by it. */
  ghost predicate Fires(s: Sys, l: Label, id: TaskId, d: Time)
    requires Running(s)
  {
    && IsEvent(ChosenEntry(s, l), s.key, TimerTick)
    && d <= Step(s, l).k.clock
    && (id in s.rt.tasks ==> id in PolledBy(s, l))
  }

  /** A round takes no timer away but those that are due. */
  lemma {:induction false} RoundTimers<S>(s: Sys, e: RuntimeEvent, ps: S, answer: ReadyAnswer<S>, polls: Futures)
    requires Polls(e)
    ensures Handled(s, e, ps, answer, polls).0.rt.timers == WokenBy(s, e).timers
  {
    var open := RoundOpens(s, e);
    RoundOpensKeeps(s, e);
    HandledFromOpen(s, e, ps, answer, polls);
    PollAllTimers(Emptied(open), ps, answer, open.rt.readyQueue, polls);
  }

  lemma {:induction false} HandledKeepsTimer<S>(
      s: Sys, e: RuntimeEvent, id: TaskId, d: Time, ps: S, answer: ReadyAnswer<S>, polls: Futures)
    requires Registered(s, id, d)
    requires e != CancelTimer(id, d) && e != Cancel(id) && (e.TimerTick? ==> s.k.clock < d)
    ensures Registered(Handled(s, e, ps, answer, polls).0, id, d)
  {
    if Polls(e) {
      RoundTimers(s, e, ps, answer, polls);
    } else {
      QuietKeepsTimer(s.rt, e, id, d);
    }
  }

  lemma {:induction false} QuietKeepsTimer(rt: Rt, e: RuntimeEvent, id: TaskId, d: Time)
    requires d in rt.timers && id in rt.timers[d]
    ensures e.Cancel? && e.task != id ==> var r := DropTimers(rt, e.task).timers; d in r && id in r[d]
    ensures e.RegisterTimer? ==> var r := AddTimer(rt, e.task, e.deadline).timers; d in r && id in r[d]
    ensures e.CancelTimer? && e != CancelTimer(id, d) ==> var r := DropTimer(rt, e.task, e.deadline).timers;
            d in r && id in r[d]
  {
    if e.Cancel? && e.task != id {
      assert id in Remove(rt.timers[d], e.task);
    }
    if e.CancelTimer? && e.task != id {
      assert id in Remove(rt.timers[d], e.task);
    }
  }

  /** A step keeps a registration, or withdraws it, or fires it. */
  lemma {:induction false} TimerStep(s: Sys, l: Label, id: TaskId, d: Time)
    requires NotPast(s) && TimerOk(s) && ReadyOk(s.rt) && Registered(s, id, d)
    ensures Running(s) && s.k.clock <= Step(s, l).k.clock <= Max(d, s.k.clock)
    ensures Registered(Step(s, l), id, d) || Withdrawn(s, l, id, d) || Fires(s, l, id, d)
  {
    TimerBoundsClock(s, l, id, d);
    PopStep(s, l);
    var p := Advanced(s, l);
    var e := ChosenEntry(s, l);
    EntryFollows(p, e, l);
    DrainStep(ProcessEntry(p, e, l));
    if IsFor(e, s.key) && !Withdrawn(s, l, id, d) {
      var ev := e.payload.event;
      if ev.TimerTick? && d <= p.k.clock {
        StepReady(s, l);
        assert Due(p.rt.timers, p.k.clock, id);
      } else {
        HandledKeepsTimer(p, ev, id, d, 0, AnswerFrom(l.readyPicks), l.polls);
      }
    }
  }

  /** Nothing a driver does between steps touches the timers. */
  lemma {:induction false} DriveTimers(s: Sys, acts: seq<Act>)
    requires NotPast(s) && TimerOk(s)
    ensures NotPast(DriveAll(s, acts)) && TimerOk(DriveAll(s, acts))
  {
    DriveFollows(s, acts);
    MirroredKept(s, DriveAll(s, acts));
  }

  lemma {:induction false} MakeTimers(s: Sys, m: Move)
    requires NotPast(s) && TimerOk(s)
    ensures NotPast(Make(s, m)) && TimerOk(Make(s, m))
  {
    match m
    case Turn(l) => StepTimers(s, l);
    case Drive(acts) => DriveTimers(s, acts);
  }

  /**
   * Follows one registration through a run. While it stands, the clock is at most `due` and the
   * simulation is not over; if nobody withdraws it, a tick fires it when the clock is exactly `due`.
   */
  ghost predicate HonoursTimer(s: Sys, ms: seq<Move>, id: TaskId, d: Time, due: Time)
    decreases |ms|
  {
    && s.k.clock <= due && Running(s)
    && (ms != [] ==>
          var m, r := ms[0], Make(s, ms[0]);
          && r.k.clock <= due
          && (|| (m.Turn? && Withdrawn(s, m.l, id, d))
              || (m.Turn? && Fires(s, m.l, id, d) && r.k.clock == due)
              || (Registered(r, id, d) && HonoursTimer(r, ms[1..], id, d, due))))
  }

  /**
   * For any frontier and ready-task policies, any code, and anything done between the steps: a
   * registered deadline is never passed, and its task is polled with the clock exactly there (or at
   * once, if it was already past).
   */
  lemma {:induction false} TimersAreExact(s: Sys, ms: seq<Move>, id: TaskId, d: Time, due: Time)
    requires NotPast(s) && TimerOk(s) && ReadyOk(s.rt) && Registered(s, id, d)
    requires due == Max(d, s.k.clock)
    ensures HonoursTimer(s, ms, id, d, due)
    decreases |ms|
  {
    TimerMeansRunning(s, id, d);
    if ms != [] {
      var m := ms[0];
      var gone := m.Turn? && Withdrawn(s, m.l, id, d);
      if m.Turn? {
        TimerStep(s, m.l, id, d);
      }
      if Registered(Make(s, m), id, d) && !gone {
        MakeTimers(s, m);
        MakeReady(s, m);
        TimersAreExact(Make(s, m), ms[1..], id, d, due);
      }
    }
  }

  // ----- withdrawing a registration -----

  /** Cancelling a task takes it out of every deadline's list, and every other task stays in. */
  lemma {:induction false} CancelUnregisters(s: Sys, id: TaskId, acts: seq<Act>, other: TaskId, d: Time)
    ensures Registered(CancelTask(s, id, acts), other, d) <==> Registered(s, other, d) && other != id
  {}

  /** Processing a CancelTimer removes every registration of the task at that deadline. */
  lemma {:induction false} UnregisterWithdraws(s: Sys, id: TaskId, d: Time)
    ensures !Registered(Unregister(s, id, d), id, d)
  {}

  /**
   * So two sleeps of one task until the same deadline are not independent: withdrawing one takes the
   * other's timer away.
   */
  lemma {:induction false} SleepsShareTheirTimer(s: Sys, id: TaskId, d: Time)
    requires id in s.rt.tasks
    ensures var r := Register(Register(s, id, d), id, d);
            && r.rt.timers[d] == (if d in s.rt.timers then s.rt.timers[d] else []) + [id, id]
            && !Registered(Unregister(r, id, d), id, d)
  {
    UnregisterWithdraws(Register(Register(s, id, d), id, d), id, d);
  }

  /** A step that handles a runtime event leaves the runtime as the handler does. */
  lemma {:induction false} StepHandles(s: Sys, l: Label, e: RuntimeEvent)
    requires Running(s) && IsEvent(ChosenEntry(s, l), s.key, e)
    ensures Step(s, l).rt == Handled(Advanced(s, l), e, 0, AnswerFrom(l.readyPicks), l.polls).0.rt
  {}

  /** A registration appears only when its own event is processed for a live task, and then it does. */
  lemma {:induction false} OnlyItsEventRegisters(s: Sys, l: Label, id: TaskId, d: Time)
    requires !Registered(s, id, d)
    ensures Registered(Step(s, l), id, d) <==>
            Running(s) && IsEvent(ChosenEntry(s, l), s.key, RegisterTimer(id, d)) && id in s.rt.tasks
  {
    if Running(s) {
      var p := Advanced(s, l);
      var e := ChosenEntry(s, l);
      if IsFor(e, s.key) {
        HandledRegisters(p, e.payload.event, l, id, d);
      }
    }
  }

  lemma {:induction false} HandledRegisters(s: Sys, e: RuntimeEvent, l: Label, id: TaskId, d: Time)
    requires !Registered(s, id, d)
    ensures Registered(Handled(s, e, 0, AnswerFrom(l.readyPicks), l.polls).0, id, d) <==>
            e == RegisterTimer(id, d) && id in s.rt.tasks
  {
    if Polls(e) {
      RoundTimers(s, e, 0, AnswerFrom(l.readyPicks), l.polls);
    }
  }

  /** A run processes no event that registers a timer of the task at the deadline. */
  ghost predicate NeverRegisters(s: Sys, ms: seq<Move>, id: TaskId, d: Time)
    decreases |ms|
  {
    ms != [] ==>
      && !(ms[0].Turn? && Running(s) && IsEvent(ChosenEntry(s, ms[0].l), s.key, RegisterTimer(id, d)))
      && NeverRegisters(Make(s, ms[0]), ms[1..], id, d)
  }

  lemma {:induction false} StaysUnregistered(s: Sys, ms: seq<Move>, id: TaskId, d: Time)
    requires !Registered(s, id, d) && NeverRegisters(s, ms, id, d)
    ensures !Registered(Run(s, ms), id, d)
    decreases |ms|
  {
    if ms != [] {
      if ms[0].Turn? {
        OnlyItsEventRegisters(s, ms[0].l, id, d);
      }
      StaysUnregistered(Make(s, ms[0]), ms[1..], id, d);
    }
  }

  // ----- stale ticks -----

  /**
   * Registering a deadline and then an earlier one leaves two ticks in the queue: there is not just
   * one outstanding.
   */
  lemma {:induction false} TwoTicksOutstanding(s: Sys, id: TaskId, d: Time, earlier: Time)
    requires id in s.rt.tasks && s.rt.timers == map[] && s.rt.nextTimerDeadline == None && earlier < d
    ensures var r := Register(Register(s, id, d), id, earlier);
            exists a <- r.k.events, b <- r.k.events ::
              a != b && IsEvent(a, s.key, TimerTick) && IsEvent(b, s.key, TimerTick)
  {
    var r1 := Register(s, id, d);
    assert AddTimer(s.rt, id, d).timers.Keys == {d};
    assert Earliest(AddTimer(s.rt, id, d).timers) == Some(d);
    var a :=
      Kernel.ComponentEvent(s.k.nextEvent + 1, Plus(s.k.clock, Since(d, s.k.clock)), s.key, ToRuntime(TimerTick));
    assert a in r1.k.events && r1.rt.nextTimerDeadline == Some(d);
    var timers := AddTimer(r1.rt, id, earlier).timers;
    assert timers.Keys == {d, earlier};
    assert Earliest(timers) == Some(earlier);
    var b :=
      Kernel.ComponentEvent(s.k.nextEvent + 2, Plus(s.k.clock, Since(earlier, s.k.clock)), s.key, ToRuntime(TimerTick));
    assert b in Register(r1, id, earlier).k.events && a in Register(r1, id, earlier).k.events;
    assert IsEvent(a, s.key, TimerTick) && IsEvent(b, s.key, TimerTick) && a != b;
  }
}
