/** How the operations of the runtime move the kernel: they only add entries, none of them in the past. */
module RuntimeSteps {
  import opened SimTime
  import opened Options
  import R = Runtime
  import opened Runtime
  import opened KernelRuns
  import Kernel

  /** From s to r, inside one step: same clock, entries and deferred wakes were only added. */
  ghost predicate Follows(s: Sys, r: Sys) {
    r.key == s.key && Grew(s.k, r.k) && s.k.deferred <= r.k.deferred
  }

  /** The same, done by issuing commands. */
  ghost predicate Issues(s: Sys, r: Sys) {
    r.key == s.key && exists cs :: r.k == Kernel.DoAll(s.k, cs)
  }

  lemma {:induction false} IssuesFollows(s: Sys, r: Sys)
    requires Issues(s, r)
    ensures Follows(s, r)
  {
    var cs :| r.k == Kernel.DoAll(s.k, cs);
    DoAllGrows(s.k, cs);
    DoAllDefers(s.k, cs);
  }

  lemma {:induction false} IssuesTrans(a: Sys, b: Sys, c: Sys)
    requires Issues(a, b) && Issues(b, c)
    ensures Issues(a, c)
  {
    var x :| b.k == Kernel.DoAll(a.k, x);
    var y :| c.k == Kernel.DoAll(b.k, y);
    DoAllAppend(a.k, x, y);
    assert c.k == Kernel.DoAll(a.k, x + y);
  }

  lemma {:induction false} IssuesNothing(s: Sys, r: Sys)
    requires r.key == s.key && r.k == s.k
    ensures Issues(s, r)
  {
    assert r.k == Kernel.DoAll(s.k, []);
  }

  lemma {:induction false} IssuesOne(s: Sys, r: Sys, c: Kernel.Command<Message>)
    requires r.key == s.key && r.k == Kernel.Do(s.k, c)
    ensures Issues(s, r)
  {
    assert Kernel.DoAll(s.k, [c]) == Kernel.Do(s.k, c);
  }

  lemma {:induction false} PerformAllIssues(s: Sys, acts: seq<Act>)
    ensures PerformAll(s, acts).k == Kernel.DoAll(s.k, CommandsOf(s.key, acts))
    ensures Issues(s, PerformAll(s, acts))
    decreases |acts|
  {
    if acts != [] {
      PerformAllIssues(Perform(s, acts[0]), acts[1..]);
    }
  }

  lemma {:induction false} PollOneIssues(s: Sys, id: TaskId, polls: Futures)
    ensures Issues(s, PollOne(s, id, polls))
  {
    if id in s.rt.tasks {
      PerformAllIssues(s.(rt := s.rt.(tasks := s.rt.tasks[id := false])), polls(id).acts);
    } else {
      IssuesNothing(s, s);
    }
  }

  lemma {:induction false} PollAllIssues<S>(s: Sys, ps: S, answer: ReadyAnswer<S>, left: seq<TaskId>, polls: Futures)
    ensures Issues(s, PollAll(s, ps, answer, left, polls).0)
    decreases |left|
  {
    if left == [] {
      IssuesNothing(s, s);
    } else {
      var (ps', pick) := answer(ps, s.k.clock, left);
      var i := Vectors.Clamp(pick, |left|);
      var s1 := PollOne(s, left[i], polls);
      PollOneIssues(s, left[i], polls);
      PollAllIssues(s1, ps', answer, Vectors.SwapRemove(left, i), polls);
      IssuesTrans(s, s1, PollAll(s1, ps', answer, Vectors.SwapRemove(left, i), polls).0);
    }
  }

  lemma {:induction false} PollReadyIssues<S>(s: Sys, ps: S, answer: ReadyAnswer<S>, polls: Futures)
    ensures Issues(s, PollReady(s, ps, answer, polls).0)
  {
    var rt := Install(s.rt);
    PollAllIssues(s.(rt := rt.(readyQueue := [])), ps, answer, rt.readyQueue, polls);
  }

  lemma {:induction false} PushIssues(s: Sys, delay: Time, e: RuntimeEvent)
    ensures Issues(s, s.(k := Kernel.PushComponent(s.k, delay, s.key, ToRuntime(e))))
  {
    IssuesOne(s, s.(k := Kernel.PushComponent(s.k, delay, s.key, ToRuntime(e))),
      Kernel.Schedule(delay, s.key, ToRuntime(e)));
  }

  lemma {:induction false} ScheduleTickIssues(s: Sys)
    ensures Issues(s, ScheduleTick(s))
  {
    var next := Earliest(s.rt.timers);
    if next != s.rt.nextTimerDeadline && next.Some? {
      PushIssues(s, Since(next.value, s.k.clock), TimerTick);
    } else {
      IssuesNothing(s, ScheduleTick(s));
    }
  }

  lemma {:induction false} DropFutureIssues(s: Sys, id: TaskId, acts: seq<Act>)
    ensures Issues(s, DropFuture(s, id, acts))
  {
    PerformAllIssues(s.(rt := s.rt.(tasks := s.rt.tasks - {id})), if id in s.rt.tasks then acts else []);
  }

  lemma {:induction false} CancelIssues(s: Sys, id: TaskId, acts: seq<Act>)
    ensures Issues(s, CancelTask(s, id, acts))
  {
    var r := DropFuture(s, id, acts);
    var q := r.(rt := DropTimers(r.rt, id));
    DropFutureIssues(s, id, acts);
    IssuesNothing(r, q);
    IssuesTrans(s, r, q);
    ScheduleTickIssues(q);
    IssuesTrans(s, q, ScheduleTick(q));
  }

  lemma {:induction false} HandledIssues<S>(s: Sys, e: RuntimeEvent, ps: S, answer: ReadyAnswer<S>, polls: Futures)
    ensures Issues(s, Handled(s, e, ps, answer, polls).0)
  {
    match e
    case Poll => PollReadyIssues(s, ps, answer, polls);
    case Wake(id) => PollReadyIssues(s.(rt := WakeTask(s.rt, id)), ps, answer, polls);
    case Cancel(id) => CancelIssues(s, id, polls(id).acts);
    case RegisterTimer(id, deadline) =>
      IssuesNothing(s, s);
      ScheduleTickIssues(s.(rt := AddTimer(s.rt, id, deadline)));
    case CancelTimer(id, deadline) =>
      IssuesNothing(s, s.(rt := DropTimer(s.rt, id, deadline)));
      ScheduleTickIssues(s.(rt := DropTimer(s.rt, id, deadline)));
    case TimerTick =>
      var s1 := s.(rt := WakeDue(s.rt.(nextTimerDeadline := None), s.k.clock));
      ScheduleTickIssues(s1);
      PollReadyIssues(ScheduleTick(s1), ps, answer, polls);
      IssuesTrans(s1, ScheduleTick(s1), PollReady(ScheduleTick(s1), ps, answer, polls).0);
  }

  /** Everything the runtime does to the kernel while it processes an event is a list of scheduler commands. */
  lemma {:induction false} EventIssues<S>(s: Sys, e: RuntimeEvent, ps: S, answer: ReadyAnswer<S>, polls: Futures)
    ensures Issues(s, R.ProcessEvent(s, e, ps, answer, polls).0)
  {
    var r := Handled(s, e, ps, answer, polls).0;
    HandledIssues(s, e, ps, answer, polls);
    PushIssues(r, 0, Poll);
    IssuesTrans(s, r, r.(k := Kernel.PushComponent(r.k, 0, r.key, ToRuntime(Poll))));
  }

  lemma {:induction false} ProcessFollows(s: Kernel.State<Message>, e: Kernel.Entry<Message>, w: Kernel.Work<Message>)
    ensures var r := Kernel.Process(s, e, w); Grew(s, r) && s.deferred <= r.deferred
  {
    match e {
      case ComponentEvent(_, _, _, _) =>
        DoAllGrows(s, w.commands);
        DoAllDefers(s, w.commands);
      case TaskEvent(_, _, id) =>
        ExecuteGrows(s, id, w);
        DoAllDefers(Kernel.Started(s, id), w.commands);
    }
  }

  /** Inside a step the kernel only gains entries, at or after the clock. */
  lemma {:induction false} EntryFollows(s: Sys, e: Kernel.Entry<Message>, l: Label)
    ensures Follows(s, ProcessEntry(s, e, l))
  {
    if IsFor(e, s.key) {
      EventIssues(s, e.payload.event, 0, AnswerFrom(l.readyPicks), l.polls);
      IssuesFollows(s, ProcessEntry(s, e, l));
    } else {
      ProcessFollows(s.k, e, ForeignWork(s.key, l));
    }
  }

  // ----- the runtime as one component of the kernel -----

  /**
   * A step of the whole system is a step of the kernel, so every kernel result holds of it: the
   * runtime is a component whose event processing is a list of commands.
   */
  lemma {:induction false} StepIsKernelStep(s: Sys, l: Label) returns (kl: Kernel.Label<Message>)
    ensures Step(s, l).k == Kernel.Step(s.k, kl) && kl.pick == l.pick
    ensures Running(s) && !IsFor(ChosenEntry(s, l), s.key) ==> kl.work == ForeignWork(s.key, l)
  {
    kl := Kernel.Label(l.pick, ForeignWork(s.key, l));
    if Running(s) && IsFor(ChosenEntry(s, l), s.key) {
      var p := Advanced(s, l);
      var r := ProcessEntry(p, ChosenEntry(s, l), l);
      EventIssues(p, ChosenEntry(s, l).payload.event, 0, AnswerFrom(l.readyPicks), l.polls);
      var cs :| r.k == Kernel.DoAll(p.k, cs);
      kl := Kernel.Label(l.pick, Kernel.Work(cs, l.ok, l.output));
    }
  }

  /** What a driver's acts ask of the scheduler. */
  function DriverCommands(acts: seq<Act>): seq<Kernel.Command<Message>> {
    if acts == [] then []
    else if acts[0].Sched? then [acts[0].command] + DriverCommands(acts[1..])
    else DriverCommands(acts[1..])
  }

  lemma {:induction false} DriveIsKernelDrive(s: Sys, acts: seq<Act>)
    ensures DriveAll(s, acts).k == Kernel.DoAll(s.k, DriverCommands(acts))
    decreases |acts|
  {
    if acts != [] {
      var r := DriveOne(s, acts[0]);
      DriveIsKernelDrive(r, acts[1..]);
      if acts[0].Sched? {
        assert DriverCommands(acts)[1..] == DriverCommands(acts[1..]);
      }
    }
  }

  lemma {:induction false} DriveFollows(s: Sys, acts: seq<Act>)
    ensures Follows(s, DriveAll(s, acts))
  {
    DriveIsKernelDrive(s, acts);
    IssuesFollows(s, DriveAll(s, acts));
  }

  lemma {:induction false} RunIsKernelRun(s: Sys, ms: seq<Move>) returns (kms: seq<Kernel.Move<Message>>)
    ensures Run(s, ms).k == Kernel.Run(s.k, kms) && |kms| == |ms|
    decreases |ms|
  {
    if ms == [] {
      kms := [];
    } else {
      var km;
      match ms[0] {
        case Turn(l) =>
          var kl := StepIsKernelStep(s, l);
          km := Kernel.Turn(kl);
        case Drive(acts) =>
          DriveIsKernelDrive(s, acts);
          km := Kernel.Drive(DriverCommands(acts));
      }
      var rest := RunIsKernelRun(Make(s, ms[0]), ms[1..]);
      kms := [km] + rest;
      assert kms[1..] == rest;
    }
  }

  // ----- between steps -----

  /** No queued entry lies in the past. */
  ghost predicate NotPast(s: Sys) {
    forall e <- s.k.events :: s.k.clock <= e.time
  }

  /** The chosen entry is a live one of least time, and the clock moves to it. */
  lemma {:induction false} PopStep(s: Sys, l: Label)
    requires NotPast(s) && Running(s)
    ensures var e := ChosenEntry(s, l); var p := Advanced(s, l);
      && e in Kernel.Live(s.k) && (forall f <- Kernel.Live(s.k) :: e.time <= f.time)
      && NotPast(p) && s.k.clock <= p.k.clock == e.time
      && (forall f <- s.k.events :: f.ComponentEvent? && f != e ==> f in p.k.events)
      && p.rt == s.rt && p.key == s.key
      && p.k.deferred == s.k.deferred
  {
    var e := ChosenEntry(s, l);
    forall f <- Kernel.Live(s.k) ensures e.time <= f.time {
      assert !Kernel.Before(f, Kernel.Top(Kernel.Live(s.k)));
    }
    var p := Advanced(s, l);
    forall f <- p.k.events ensures p.k.clock <= f.time {
      if !Kernel.IsCancelled(s.k, f) {
        assert f in Kernel.Live(s.k);
      }
    }
  }

  /** The entry that a wake deferred without delay becomes when it is drained. */
  ghost predicate IsWakeFor(e: Kernel.Entry<Message>, d: Kernel.Deferred<Message>, now: Time) {
    e.ComponentEvent? && e.time == now && e.component == d.component && e.payload == d.payload
  }

  lemma {:induction false} DrainAllWakes(
      s: Kernel.State<Message>, ds: seq<Kernel.Deferred<Message>>, d: Kernel.Deferred<Message>)
    requires d in ds && d.delay == 0
    ensures exists e <- Kernel.DrainAll(s, ds).events :: IsWakeFor(e, d, s.clock)
    decreases |ds|
  {
    var s1 := Kernel.PushComponent(s, ds[0].delay, ds[0].component, ds[0].payload);
    if ds[0] == d {
      DrainAllGrows(s1, ds[1..]);
      var e := Kernel.ComponentEvent(s.nextEvent + 1, s.clock, d.component, d.payload);
      assert e in s1.events;
      assert e in Kernel.DrainAll(s, ds).events && IsWakeFor(e, d, s.clock);
    } else {
      DrainAllWakes(s1, ds[1..], d);
    }
  }

  /** Draining schedules every deferred wake. */
  lemma {:induction false} DrainStep(s: Sys)
    requires NotPast(s)
    ensures var r := s.(k := Kernel.Drain(s.k));
      && NotPast(r) && s.k.events <= r.k.events && r.k.clock == s.k.clock && r.k.deferred == []
      && (forall d <- s.k.deferred :: d.delay == 0 ==>
            exists e <- r.k.events :: IsWakeFor(e, d, s.k.clock))
  {
    DrainAllGrows(s.k, s.k.deferred);
    forall d <- s.k.deferred | d.delay == 0
      ensures exists e <- Kernel.DrainAll(s.k, s.k.deferred).events :: IsWakeFor(e, d, s.k.clock)
    {
      DrainAllWakes(s.k, s.k.deferred, d);
    }
  }

  /** A step never leaves an entry in the past and never turns the clock back. */
  lemma {:induction false} StepNotPast(s: Sys, l: Label)
    requires NotPast(s)
    ensures NotPast(Step(s, l)) && s.k.clock <= Step(s, l).k.clock && Step(s, l).key == s.key
  {
    if Running(s) {
      PopStep(s, l);
      EntryFollows(Advanced(s, l), ChosenEntry(s, l), l);
      DrainStep(ProcessEntry(Advanced(s, l), ChosenEntry(s, l), l));
    }
  }

  lemma {:induction false} DriveNotPast(s: Sys, acts: seq<Act>)
    requires NotPast(s)
    ensures NotPast(DriveAll(s, acts))
  {
    DriveFollows(s, acts);
  }
}
