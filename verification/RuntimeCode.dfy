/** What the code run by a step asks for is done, in order: on the scheduler, and on the spawn queues. */
module RuntimeCode {
  import opened SimTime
  import opened Options
  import opened Ids
  import opened Vectors
  import opened KernelInvariants
  import opened KernelRuns
  import opened Runtime
  import opened RuntimePolling
  import opened RuntimeSteps
  import Kernel

  /** What the polls of the given tasks do, in order. */
  function ActsOf(ids: seq<TaskId>, polls: Futures): seq<Act> {
    if ids == [] then [] else polls(ids[0]).acts + ActsOf(ids[1..], polls)
  }

  /** What handling a runtime event runs: the polled futures, or the destructors of a cancelled one. */
  function EventCode(s: Sys, e: RuntimeEvent, polled: seq<TaskId>, polls: Futures): seq<Act> {
    if e.Cancel? then (if e.task in s.rt.tasks then polls(e.task).acts else []) else ActsOf(polled, polls)
  }

  /** Everything the code run by a step does, in order. */
  ghost function Performed(s: Sys, l: Label): seq<Act> {
    if !Running(s) then []
    else
      var e := ChosenEntry(s, l);
      if IsFor(e, s.key) then EventCode(s, e.payload.event, PolledBy(s, l), l.polls)
      else if Starts(Advanced(s, l).k, e) then l.acts
      else []
  }

  /** Equal as far as code can see or change it. */
  ghost predicate AlikeForCode(s: Sys, r: Sys) {
    s.key == r.key && s.k == r.k && SameSpawns(s.rt, r.rt)
  }

  lemma {:induction false} PerformAllAlike(s: Sys, r: Sys, acts: seq<Act>)
    requires AlikeForCode(s, r)
    ensures AlikeForCode(PerformAll(s, acts), PerformAll(r, acts))
    decreases |acts|
  {
    if acts != [] {
      PerformAllAlike(Perform(s, acts[0]), Perform(r, acts[0]), acts[1..]);
    }
  }

  lemma {:induction false} PerformAllAppend(s: Sys, a: seq<Act>, b: seq<Act>)
    ensures PerformAll(s, a + b) == PerformAll(PerformAll(s, a), b)
    decreases |a|
  {
    if a == [] {
      assert a + b == b;
    } else {
      TailOfConcat(a, b);
      PerformAllAppend(Perform(s, a[0]), a[1..], b);
    }
  }

  lemma {:induction false} PollOnePerforms(s: Sys, id: TaskId, polls: Futures)
    requires id in s.rt.tasks
    ensures AlikeForCode(PollOne(s, id, polls), PerformAll(s, polls(id).acts))
  {
    PerformAllAlike(s.(rt := s.rt.(tasks := s.rt.tasks[id := false])), s, polls(id).acts);
  }

  /** A round does what its polls do, in the order in which they are polled. */
  lemma {:induction false} PollAllPerforms<S>(s: Sys, ps: S, answer: ReadyAnswer<S>, left: seq<TaskId>, polls: Futures)
    ensures var (r, _, polled) := PollAll(s, ps, answer, left, polls);
            AlikeForCode(r, PerformAll(s, ActsOf(polled, polls)))
    decreases |left|
  {
    if left != [] {
      var (ps', pick) := answer(ps, s.k.clock, left);
      var i := Clamp(pick, |left|);
      var s1 := PollOne(s, left[i], polls);
      var (r, _, rest) := PollAll(s1, ps', answer, SwapRemove(left, i), polls);
      PollAllPerforms(s1, ps', answer, SwapRemove(left, i), polls);
      PollAllStep(s, ps, answer, left, polls);
      if left[i] in s.rt.tasks {
        PollOnePerforms(s, left[i], polls);
        PerformAllAlike(s1, PerformAll(s, polls(left[i]).acts), ActsOf(rest, polls));
        PerformAllAppend(s, polls(left[i]).acts, ActsOf(rest, polls));
        assert ([left[i]] + rest)[1..] == rest;
      } else {
        assert [] + rest == rest;
      }
    }
  }

  /** Handling an event runs its code on a state that differs only by a tick and by installed spawns. */
  lemma {:induction false} HandledPerforms<S>(s: Sys, e: RuntimeEvent, ps: S, answer: ReadyAnswer<S>, polls: Futures)
    returns (start: Sys, end: Sys)
    ensures var (r, _, polled) := Handled(s, e, ps, answer, polls);
            && Issues(s, start) && start.rt.nextTaskId == s.rt.nextTaskId
            && end == PerformAll(start, EventCode(s, e, polled, polls))
            && Issues(end, r) && SameSpawns(end.rt, r.rt)
  {
    var r := Handled(s, e, ps, answer, polls).0;
    if Polls(e) {
      var open := RoundOpens(s, e);
      start := Emptied(open);
      RoundOpensIssues(s, e);
      HandledFromOpen(s, e, ps, answer, polls);
      PollAllPerforms(start, ps, answer, open.rt.readyQueue, polls);
      end := PerformAll(start, ActsOf(Handled(s, e, ps, answer, polls).2, polls));
      IssuesNothing(end, r);
    } else if e.Cancel? {
      start := s.(rt := s.rt.(tasks := s.rt.tasks - {e.task}));
      end := DropFuture(s, e.task, polls(e.task).acts);
      IssuesNothing(s, start);
      var q := end.(rt := DropTimers(end.rt, e.task));
      IssuesNothing(end, q);
      ScheduleTickIssues(q);
      IssuesTrans(end, q, r);
    } else {
      start, end := s, s;
      IssuesNothing(s, s);
      HandledIssues(s, e, ps, answer, polls);
    }
  }

  lemma {:induction false} RoundOpensIssues(s: Sys, e: RuntimeEvent)
    requires Polls(e)
    ensures Issues(s, Emptied(RoundOpens(s, e))) && RoundOpens(s, e).rt.nextTaskId == s.rt.nextTaskId
  {
    var start := s.(rt := WokenBy(s, e));
    IssuesNothing(s, start);
    WokenBySpawns(s, e);
    if e.TimerTick? {
      ScheduleTickIssues(start);
      IssuesTrans(s, start, ScheduleTick(start));
      IssuesNothing(ScheduleTick(start), Emptied(RoundOpens(s, e)));
      IssuesTrans(s, ScheduleTick(start), Emptied(RoundOpens(s, e)));
    } else {
      IssuesNothing(s, Emptied(RoundOpens(s, e)));
    }
  }

  lemma {:induction false} WokenBySpawns(s: Sys, e: RuntimeEvent)
    requires Polls(e)
    ensures SameSpawns(s.rt, WokenBy(s, e))
  {
    if e.TimerTick? {
      WakeDueSpawns(s.rt.(nextTimerDeadline := None), s.k.clock);
    }
  }

  lemma {:induction false} WakeAllSpawns(rt: Rt, ids: seq<TaskId>)
    ensures SameSpawns(rt, WakeAll(rt, ids))
    decreases |ids|
  {
    if ids != [] {
      WakeAllSpawns(WakeTask(rt, ids[0]), ids[1..]);
    }
  }

  lemma {:induction false} WakeDueSpawns(rt: Rt, now: Time)
    ensures SameSpawns(rt, WakeDue(rt, now))
    decreases |rt.timers|
  {
    var first := Earliest(rt.timers);
    if first.Some? && first.value <= now {
      var rt1 := rt.(timers := rt.timers - {first.value});
      WakeAllSpawns(rt1, rt.timers[first.value]);
      WakeDueSpawns(WakeAll(rt1, rt.timers[first.value]), now);
    }
  }

  // ----- the spawn queues -----

  /** A step leaves the spawn queues as its code does; the id counter stood as before when the code began. */
  lemma {:induction false} StepPerforms(s: Sys, l: Label) returns (start: Sys)
    ensures start.rt.nextTaskId == s.rt.nextTaskId
    ensures SameSpawns(PerformAll(start, Performed(s, l)).rt, Step(s, l).rt)
  {
    start := s;
    if Running(s) {
      var p, e := Advanced(s, l), ChosenEntry(s, l);
      if IsFor(e, s.key) {
        var end;
        start, end := HandledPerforms(p, e.payload.event, 0, AnswerFrom(l.readyPicks), l.polls);
      } else {
        start := p;
      }
    }
  }

  // ----- the scheduler -----

  lemma {:induction false} CommandsOfEach(key: Uuid, acts: seq<Act>, a: Act)
    requires a in acts
    ensures CommandOf(key, a) in CommandsOf(key, acts)
    decreases |acts|
  {
    if a != acts[0] {
      CommandsOfEach(key, acts[1..], a);
    }
  }

  /**
   * A step of a simulation with a runtime is a step of the kernel whose code includes every act of
   * the code run by it: of a foreign component or task, of each polled future, or of the destructors
   * of a cancelled one.
   */
  lemma {:induction false} StepRunsCode(s: Sys, l: Label) returns (kl: Kernel.Label<Message>)
    ensures Step(s, l).k == Kernel.Step(s.k, kl) && kl.pick == l.pick
    ensures forall a <- Performed(s, l) :: CommandOf(s.key, a) in kl.work.commands
  {
    if Running(s) && IsFor(ChosenEntry(s, l), s.key) {
      var p, e := Advanced(s, l), ChosenEntry(s, l).payload.event;
      var cs := EventCommands(p, e, l);
      kl := Kernel.Label(l.pick, Kernel.Work(cs, l.ok, l.output));
    } else {
      kl := StepIsKernelStep(s, l);
      forall a <- Performed(s, l) ensures CommandOf(s.key, a) in kl.work.commands {
        CommandsOfEach(s.key, l.acts, a);
      }
    }
  }

  lemma {:induction false} EventCommands(s: Sys, e: RuntimeEvent, l: Label) returns (cs: seq<Kernel.Command<Message>>)
    ensures ProcessEvent(s, e, 0, AnswerFrom(l.readyPicks), l.polls).0.k == Kernel.DoAll(s.k, cs)
    ensures var polled := ProcessEvent(s, e, 0, AnswerFrom(l.readyPicks), l.polls).2;
            forall a <- EventCode(s, e, polled, l.polls) :: CommandOf(s.key, a) in cs
  {
    var h := Handled(s, e, 0, AnswerFrom(l.readyPicks), l.polls).0;
    var r := ProcessEvent(s, e, 0, AnswerFrom(l.readyPicks), l.polls).0;
    var code := EventCode(s, e, Handled(s, e, 0, AnswerFrom(l.readyPicks), l.polls).2, l.polls);
    var start, end := HandledPerforms(s, e, 0, AnswerFrom(l.readyPicks), l.polls);
    PushIssues(h, 0, Poll);
    IssuesNothing(h, h);
    IssuesTrans(end, h, r);
    PerformAllIssues(start, code);
    var before :| start.k == Kernel.DoAll(s.k, before);
    var after :| r.k == Kernel.DoAll(end.k, after);
    var middle := CommandsOf(s.key, code);
    DoAllAppend(s.k, before, middle);
    DoAllAppend(s.k, before + middle, after);
    cs := before + middle + after;
    forall a <- code ensures CommandOf(s.key, a) in cs {
      CommandsOfEach(s.key, code, a);
    }
  }

  /**
   * So whatever code schedules or defers in a step, with a delay, is processed exactly once, with
   * the clock exactly there, along every run.
   */
  lemma {:induction false} CodeIsExact(
      s: Sys, l: Label, ms: seq<Kernel.Move<Message>>, delay: Time, component: Uuid, payload: Message)
    returns (e: Kernel.Entry<Message>)
    requires Idle(s.k) && Running(s) && Kernel.Run(Step(s, l).k, ms).nextTask < W
    requires || Sched(Kernel.Schedule(delay, component, payload)) in Performed(s, l)
             || Sched(Kernel.Defer(Kernel.Deferred(delay, component, payload))) in Performed(s, l)
    ensures IsNewFor(s.k, e, delay, component, payload, Step(s, l).k.clock) && HonoursEntry(Step(s, l).k, ms, e)
  {
    var kl := StepRunsCode(s, l);
    assert CommandOf(s.key, Sched(Kernel.Schedule(delay, component, payload)))
        == Kernel.Schedule(delay, component, payload);
    e := ScheduledIsExact(s.k, kl, ms, delay, component, payload);
  }
}
