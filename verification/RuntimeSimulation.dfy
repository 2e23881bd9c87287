/** A simulation with an installed runtime: its steps are those of the runtime state machine, for any two policies. */
module RuntimeSimulation {
  import opened Ids
  import opened Vectors
  import opened Scheduling
  import opened AsyncRuntime
  import opened KernelInvariants
  import R = Runtime
  import opened Runtime
  import opened RuntimePolling
  import Kernel

  // ----- every policy is some list of answers -----

  /** The answers a policy gives while a set is polled. */
  function PicksOf<S>(s: Sys, ps: S, answer: ReadyAnswer<S>, left: seq<TaskId>, polls: Futures): seq<nat>
    decreases |left|
  {
    if left == [] then []
    else
      var (ps', pick) := answer(ps, s.k.clock, left);
      var i := Clamp(pick, |left|);
      [pick] + PicksOf(PollOne(s, left[i], polls), ps', answer, SwapRemove(left, i), polls)
  }

  function Listed(picks: seq<nat>): nat -> nat {
    (n: nat) => if n < |picks| then picks[n] else 0
  }

  lemma {:induction false} PicksReplay<S>(
      s: Sys, ps: S, answer: ReadyAnswer<S>, left: seq<TaskId>, polls: Futures, picks: seq<nat>, n: nat)
    requires n <= |picks| && picks[n..] == PicksOf(s, ps, answer, left, polls)
    ensures var a := PollAll(s, ps, answer, left, polls);
            var b := PollAll(s, n, AnswerFrom(Listed(picks)), left, polls);
      a.0 == b.0 && a.2 == b.2
    decreases |left|
  {
    if left != [] {
      var (ps', pick) := answer(ps, s.k.clock, left);
      var i := Clamp(pick, |left|);
      assert picks[n] == picks[n..][0] == pick;
      assert picks[n + 1..] == picks[n..][1..];
      PicksReplay(PollOne(s, left[i], polls), ps', answer, SwapRemove(left, i), polls, picks, n + 1);
    }
  }

  lemma {:induction false} PollReadyReplay<S>(s: Sys, ps: S, answer: ReadyAnswer<S>, polls: Futures)
    returns (picks: seq<nat>)
    ensures var a := PollReady(s, ps, answer, polls); var b := PollReady(s, 0, AnswerFrom(Listed(picks)), polls);
      a.0 == b.0 && a.2 == b.2
  {
    var rt := Install(s.rt);
    var s1 := s.(rt := rt.(readyQueue := []));
    picks := PicksOf(s1, ps, answer, rt.readyQueue, polls);
    PicksReplay(s1, ps, answer, rt.readyQueue, polls, picks, 0);
  }

  /** What a stateful ready-task policy does is what some list of answers does, so labels cover all policies. */
  lemma {:induction false} LabelsCoverPolicies<S>(
      s: Sys, e: RuntimeEvent, ps: S, answer: ReadyAnswer<S>, polls: Futures)
    returns (picks: seq<nat>)
    ensures var a := R.ProcessEvent(s, e, ps, answer, polls);
            var b := R.ProcessEvent(s, e, 0, AnswerFrom(Listed(picks)), polls);
      a.0 == b.0 && a.2 == b.2
  {
    picks := [];
    if Polls(e) {
      var start := s.(rt := WokenBy(s, e));
      picks := PollReadyReplay(if e.TimerTick? then ScheduleTick(start) else start, ps, answer, polls);
    }
  }

  /** A scheduler, its tie-break policy, and a runtime installed under a key. */
  class Simulation<F, S> {
    const scheduler: Scheduler<Message>
    const frontierPolicy: FrontierPolicy<F>
    const runtime: DesRuntime<S>
    const key: Uuid

    constructor (scheduler: Scheduler<Message>, policy: FrontierPolicy<F>, runtime: DesRuntime<S>, key: Uuid)
      ensures this.scheduler == scheduler && frontierPolicy == policy && this.runtime == runtime && this.key == key
    {
      this.scheduler, frontierPolicy, this.runtime, this.key := scheduler, policy, runtime, key;
    }

    ghost function Here(): Sys
      reads this, scheduler, runtime
    {
      runtime.Here(scheduler, key)
    }

    /** Schedules the runtime's first poll. */
    method Install()
      modifies scheduler
      ensures Here() == Installed(old(Here()))
      ensures scheduler.events == old(scheduler.events)
                + {Kernel.ComponentEvent(old(scheduler.nextEventId) + 1, scheduler.clock, key, ToRuntime(Poll))}
    {
      scheduler.Schedule(0, key, ToRuntime(Poll));
    }

    /**
     * What the driver does between two steps: it uses the scheduler, and the runtime's handles
     * outside event processing.
     */
    method Drive(acts: seq<Act>)
      modifies scheduler, runtime
      ensures Here() == DriveAll(old(Here()), acts)
      ensures runtime.runtimeKey == old(runtime.runtimeKey)
    {
      var i := 0;
      while i < |acts|
        invariant 0 <= i <= |acts| && runtime.runtimeKey == old(runtime.runtimeKey)
        invariant DriveAll(Here(), acts[i..]) == DriveAll(old(Here()), acts)
      {
        assert acts[i..][1..] == acts[i + 1..];
        match acts[i] {
          case Sched(c) => scheduler.Perform(c);
          case SpawnVia(isLocal) => var _ := runtime.HandleSpawn(isLocal, false, scheduler, key);
          case CancelVia(isLocal, id) => runtime.HandleCancel(isLocal, false, id, scheduler, key);
        }
        i := i + 1;
      }
    }

    /**
     * `acts`, `ok` and `output` say what a foreign component or task closure does; `polls`, the
     * futures, the destructors of a cancelled one included.
     */
    method ProcessEventEntry(e: Kernel.Entry<Message>, acts: seq<Act>, ok: bool, output: Kernel.Output, polls: Futures)
      returns (polled: seq<TaskId>, ghost picks: seq<nat>)
      requires runtime.runtimeKey.Some? ==> runtime.runtimeKey.value == key
      modifies scheduler, runtime, runtime.readyTaskPolicy
      ensures runtime.runtimeKey.Some? ==> runtime.runtimeKey.value == key
      ensures forall pick :: var l := R.Label(pick, acts, ok, output, Listed(picks), polls);
        Here() == ProcessEntry(old(Here()), e, l) && polled == PolledOn(old(Here()), e, l)
    {
      if e.ComponentEvent? && e.component == key && e.payload.ToRuntime? {
        picks :=
          LabelsCoverPolicies(Here(), e.payload.event, runtime.readyTaskPolicy.state, runtime.readyTaskPolicy.answer,
            polls);
        polled := runtime.ProcessEvent(key, e.payload.event, scheduler, polls);
      } else {
        ProcessForeignEntry(e, acts, ok, output);
        polled, picks := [], [];
      }
    }

    method ProcessForeignEntry(e: Kernel.Entry<Message>, acts: seq<Act>, ok: bool, output: Kernel.Output)
      modifies scheduler, runtime
      ensures runtime.runtimeKey == old(runtime.runtimeKey)
      ensures forall pick, picks, polls ::
                Here() == ProcessForeign(old(Here()), e, R.Label(pick, acts, ok, output, picks, polls))
    {
      var work := Kernel.Work(CommandsOf(key, acts), ok, output);
      var starts := e.ComponentEvent? || (e.taskId in scheduler.pendingTasks && e.taskId !in scheduler.cancelledTasks);
      match e {
        case ComponentEvent(_, _, _, _) => scheduler.PerformAll(work.commands);
        case TaskEvent(_, _, id) => var _ := scheduler.ExecuteTask(id, work);
      }
      if starts {
        runtime.ActOnQueues(acts, old(Here()));
      }
    }

    /** Pop, process, drain: one transition of the runtime state machine. */
    method Step(acts: seq<Act>, ok: bool, output: Kernel.Output, polls: Futures)
      returns (more: bool, polled: seq<TaskId>, ghost l: R.Label)
      requires Inv(scheduler.Now()) && (runtime.runtimeKey.Some? ==> runtime.runtimeKey.value == key)
      modifies scheduler, frontierPolicy, runtime, runtime.readyTaskPolicy
      ensures runtime.runtimeKey.Some? ==> runtime.runtimeKey.value == key
      ensures more <==> Running(old(Here()))
      ensures Here() == R.Step(old(Here()), l) && polled == PolledBy(old(Here()), l)
      ensures l.acts == acts && l.ok == ok && l.output == output && l.polls == polls
    {
      ghost var pick, picks;
      var event;
      event, pick := scheduler.PopWithPolicy(frontierPolicy);
      l := R.Label(pick, acts, ok, output, Listed([]), polls);
      if event.None? {
        return false, [], l;
      }
      assert Here() == Advanced(old(Here()), l) && event.value == ChosenEntry(old(Here()), l);
      polled, picks := ProcessEventEntry(event.value, acts, ok, output, polls);
      l := R.Label(pick, acts, ok, output, Listed(picks), polls);
      scheduler.DrainDeferredWakes();
      more := true;
    }
  }
}
