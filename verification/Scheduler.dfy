/** The scheduler and the simulation as mutable objects, proved against the kernel state machine. */
module Scheduling {
  import opened SimTime
  import opened Options
  import opened Ids
  import opened Vectors
  import opened Kernel
  import opened KernelInvariants

  /** What a tie-break policy is shown of an entry. */
  datatype FrontierEvent = FrontierEvent(eventId: nat, component: Option<Uuid>, task: Option<Uuid>)

  function Describe<P>(e: Entry<P>): (d: FrontierEvent)
    ensures d.eventId == e.eventId && (d.component.Some? <==> e.ComponentEvent?) && (d.task.Some? <==> e.TaskEvent?)
    ensures e.ComponentEvent? ==> d.component.value == e.component
    ensures e.TaskEvent? ==> d.task.value == e.taskId
  {
    match e
    case ComponentEvent(id, _, component, _) => FrontierEvent(id, Some(component), None)
    case TaskEvent(id, _, task) => FrontierEvent(id, None, Some(task))
  }

  function DescribeAll<P>(es: seq<Entry<P>>): (r: seq<FrontierEvent>)
    ensures |r| == |es| && forall i :: 0 <= i < |es| ==> r[i] == Describe(es[i])
  {
    if es == [] then [] else [Describe(es[0])] + DescribeAll(es[1..])
  }

  /** A tie-break policy's transition: from its state, the time and the frontier, a new state and an index. */
  type FrontierAnswer<!S> = (S, Time, seq<FrontierEvent>) -> (S, nat)

  /** Any tie-break policy: a private state and a transition that also yields an index, in range or not. */
  class FrontierPolicy<S> {
    var state: S
    const answer: FrontierAnswer<S>

    constructor (initial: S, answer: FrontierAnswer<S>)
      ensures state == initial && this.answer == answer
    {
      state := initial;
      this.answer := answer;
    }

    method Choose(time: Time, frontier: seq<FrontierEvent>) returns (index: nat)
      modifies this
      ensures (state, index) == old(answer(state, time, frontier))
    {
      var (s, i) := answer(state, time, frontier);
      state := s;
      index := i;
    }
  }

  /** FIFO: the first index holding the least event id. */
  function FifoChoice(frontier: seq<FrontierEvent>): (index: nat)
    ensures frontier != [] ==> index < |frontier| && forall e <- frontier :: frontier[index].eventId <= e.eventId
    ensures frontier != [] ==> forall j :: 0 <= j < index ==> frontier[j].eventId > frontier[index].eventId
  {
    if |frontier| <= 1 then 0
    else
      var rest := 1 + FifoChoice(frontier[1..]);
      if frontier[0].eventId <= frontier[rest].eventId then 0 else rest
  }

  // ----- the frontier in heap order -----

  /** A list in strict heap order is the only heap-order listing of its entries. */
  lemma {:induction false} SortedUnique<P>(es: set<Entry<P>>, l: seq<Entry<P>>)
    requires Increasing(l) && (forall e <- l :: e in es) && (forall e <- es :: e in l)
    ensures l == Sorted(es)
    decreases |l|
  {
    if l == [] {
      assert es == {};
    } else {
      assert l[0] in es;
      var top := Top(es);
      assert top in l && !Before(l[0], top);
      assert top == l[0];
      forall e <- es - {top} ensures e in l[1..] {
        var i :| 0 <= i < |l| && l[i] == e;
        assert l[1..][i - 1] == e;
      }
      SortedUnique(es - {top}, l[1..]);
    }
  }

  lemma {:induction false} IncreasingSnoc<P>(l: seq<Entry<P>>, e: Entry<P>)
    requires Increasing(l) && forall f <- l :: Before(f, e)
    ensures Increasing(l + [e])
    decreases |l|
  {
    if l != [] {
      IncreasingSnoc(l[1..], e);
      assert (l + [e])[1..] == l[1..] + [e];
    } else {
      assert (l + [e])[1..] == [];
    }
  }

  class Scheduler<P(==)> {
    var nextEventId: nat
    var nextTaskId: nat
    const mint: nat -> Uuid
    var events: set<Entry<P>>
    var clock: Time
    var pendingTasks: map<Uuid, Task>
    var completedTaskResults: map<Uuid, Output>
    var cancelledTasks: set<Uuid>
    var executingTaskId: Option<Uuid>
    /** The thread-local buffer of deferred wakes. */
    var deferredWakes: seq<Deferred<P>>

    ghost function Now(): State<P>
      reads this
    {
      State(nextEventId, nextTaskId, mint, events, clock, pendingTasks, completedTaskResults,
            cancelledTasks, executingTaskId, deferredWakes)
    }

    constructor WithSeed(seed: Word)
      ensures Now() == Initial(TaskMint(seed)) && Idle(Now())
      ensures nextEventId == 0 && nextTaskId == 0 && events == {} && clock == 0 && mint == TaskMint(seed)
      ensures pendingTasks == map[] && completedTaskResults == map[] && cancelledTasks == {}
      ensures executingTaskId == None && deferredWakes == []
    {
      nextEventId, nextTaskId, mint := 0, 0, TaskMint(seed);
      events, clock := {}, 0;
      pendingTasks, completedTaskResults, cancelledTasks := map[], map[], {};
      executingTaskId, deferredWakes := None, [];
      new;
      TaskMintIsInjective(seed);
      InitialIdle<P>(mint);
    }

    /** Adds one entry, at the clock plus the delay or at the end of time if that comes first. */
    method Schedule(delay: Time, component: Uuid, payload: P)
      modifies this`nextEventId, this`events
      ensures Now() == PushComponent(old(Now()), delay, component, payload)
      ensures nextEventId == old(nextEventId) + 1
      ensures var due := clock + delay;
              events == old(events)
                + {ComponentEvent(nextEventId, if due <= MAX_NANOS then due else MAX_NANOS, component, payload)}
    {
      nextEventId := nextEventId + 1;
      var absolute := Plus(clock, delay);
      events := events + {ComponentEvent(nextEventId, absolute, component, payload)};
    }

    method ScheduleTask(delay: Time, task: Task) returns (id: Uuid)
      modifies this`nextEventId, this`nextTaskId, this`events, this`pendingTasks
      ensures Now() == SpawnTask(old(Now()), delay, task)
      ensures id == mint(nextTaskId) && nextTaskId == old(nextTaskId) + 1 && nextEventId == old(nextEventId) + 1
      ensures pendingTasks == old(pendingTasks)[id := task]
      ensures var due := clock + delay;
              events == old(events) + {TaskEvent(nextEventId, if due <= MAX_NANOS then due else MAX_NANOS, id)}
    {
      nextTaskId := nextTaskId + 1;
      id := mint(nextTaskId);
      ScheduleTaskAt(Plus(clock, delay), id, task);
    }

    method ScheduleTaskAt(time: Time, id: Uuid, task: Task)
      modifies this`nextEventId, this`events, this`pendingTasks
      ensures Now() == PushTask(old(Now()), time, id, task)
      ensures nextEventId == old(nextEventId) + 1 && pendingTasks == old(pendingTasks)[id := task]
      ensures events == old(events) + {TaskEvent(nextEventId, time, id)}
    {
      pendingTasks := pendingTasks[id := task];
      nextEventId := nextEventId + 1;
      events := events + {TaskEvent(nextEventId, time, id)};
    }

    /** True exactly when the task was still pending; then its entry will be skipped. */
    method Cancel(id: Uuid) returns (wasPending: bool)
      modifies this`pendingTasks, this`cancelledTasks
      ensures wasPending <==> id in old(pendingTasks)
      ensures pendingTasks == old(pendingTasks) - {id}
      ensures cancelledTasks == if wasPending then old(cancelledTasks) + {id} else old(cancelledTasks)
      ensures Now() == CancelTask(old(Now()), id)
    {
      wasPending := id in pendingTasks;
      if wasPending {
        pendingTasks := pendingTasks - {id};
        cancelledTasks := cancelledTasks + {id};
      }
    }

    /** A result can be taken once. */
    method TakeResult(id: Uuid) returns (result: Option<Output>)
      modifies this`completedTaskResults
      ensures completedTaskResults == old(completedTaskResults) - {id}
      ensures result == if id in old(completedTaskResults) then Some(old(completedTaskResults)[id]) else None
      ensures Now() == Do(old(Now()), Take(id))
    {
      result := if id in completedTaskResults then Some(completedTaskResults[id]) else None;
      completedTaskResults := completedTaskResults - {id};
    }

    method DeferWake(wake: Deferred<P>)
      modifies this`deferredWakes
      ensures deferredWakes == old(deferredWakes) + [wake]
      ensures Now() == Do(old(Now()), Defer(wake))
    {
      deferredWakes := deferredWakes + [wake];
    }

    /** Wake number i becomes the i-th new entry, due after its delay from the present clock. */
    method DrainDeferredWakes()
      modifies this`nextEventId, this`events, this`deferredWakes
      ensures Now() == Drain(old(Now()))
      ensures deferredWakes == [] && nextEventId == old(nextEventId) + |old(deferredWakes)|
      ensures events == old(events) + WakeEntries(old(deferredWakes), old(nextEventId), clock)
    {
      var wakes := deferredWakes;
      var i := 0;
      while i < |wakes|
        invariant 0 <= i <= |wakes| && deferredWakes == wakes
        invariant DrainAll(Now(), wakes[i..]) == DrainAll(old(Now()), wakes)
      {
        assert wakes[i..][1..] == wakes[i + 1..];
        Schedule(wakes[i].delay, wakes[i].component, wakes[i].payload);
        i := i + 1;
      }
      DrainSchedules(old(Now()), wakes);
      deferredWakes := [];
    }

    /** The heap's pop: the greatest entry of the reversed order. */
    method HeapPop() returns (e: Entry<P>)
      requires events != {}
      modifies this`events
      ensures IsTop(e, old(events)) && events == old(events) - {e}
    {
      TopExists(events);
      e :| e in events && IsTop(e, events);
      events := events - {e};
    }

    /** Recognises the entry of a cancelled task and uses its cancellation mark up. */
    method IsCancelledTaskEvent(e: Entry<P>) returns (cancelled: bool)
      modifies this`cancelledTasks
      ensures cancelled <==> e.TaskEvent? && e.taskId in old(cancelledTasks)
      ensures cancelledTasks == if cancelled then old(cancelledTasks) - {e.taskId} else old(cancelledTasks)
    {
      cancelled := false;
      if e.TaskEvent? && e.taskId in cancelledTasks {
        cancelledTasks := cancelledTasks - {e.taskId};
        cancelled := true;
      }
    }

    method PopChecked() returns (e: Entry<P>, cancelled: bool)
      requires events != {}
      modifies this`events, this`cancelledTasks
      ensures IsTop(e, old(Now()).events) && (cancelled <==> IsCancelled(old(Now()), e))
      ensures Now() == if cancelled then Dropped(old(Now()), e) else Taken(old(Now()), e)
    {
      e := HeapPop();
      cancelled := IsCancelledTaskEvent(e);
    }

    /** Skips cancelled entries in heap order, each with its mark, until a live one comes off. */
    method PopLive() returns (r: Option<Entry<P>>, ghost skipped: set<Entry<P>>, ghost before: State<P>)
      requires Inv(Now())
      modifies this`events, this`cancelledTasks
      ensures Skipping(old(Now()), skipped, before)
      ensures r.None? ==> Now() == before && before.events == {}
      ensures r.Some? ==>
              IsTop(r.value, before.events) && !IsCancelled(before, r.value) && Now() == Taken(before, r.value)
    {
      skipped, before := {}, Now();
      while events != {}
        invariant Skipping(old(Now()), skipped, before) && Now() == before
        decreases |events|
      {
        var e, cancelled := PopChecked();
        if !cancelled {
          return Some(e), skipped, before;
        }
        Skip(old(Now()), skipped, before, e);
        skipped, before := skipped + {e}, Now();
      }
      return None, skipped, before;
    }

    method Pop() returns (r: Option<Entry<P>>)
      requires Inv(Now())
      modifies this`events, this`cancelledTasks, this`clock
      ensures r.None? <==> Live(old(Now())) == {}
      ensures r.None? ==> Now() == Sweep(old(Now()), MAX_NANOS)
      ensures r.Some? ==> IsTop(r.value, Live(old(Now()))) && Now() == PlainPopped(old(Now()), r.value)
      ensures r.Some? ==> clock == r.value.time
      ensures r.Some? ==> forall e <- old(events) :: e !in events <==> e == r.value || SkippedBy(old(Now()), e, r.value)
    {
      ghost var skipped, before;
      r, skipped, before := PopLive();
      if r.Some? {
        PoppedIsTop(old(Now()), skipped, before, r.value);
        clock := r.value.time;
      } else {
        AllSkipped(old(Now()), skipped, before);
      }
    }

    method HeapPeek() returns (e: Entry<P>)
      requires events != {}
      ensures IsTop(e, events)
    {
      TopExists(events);
      e :| e in events && IsTop(e, events);
    }

    /** Pops everything due at the time of the first live entry; the live entries form the frontier, in heap order. */
    method CollectFrontier(first: Entry<P>, ghost s0: State<P>, ghost skipped: set<Entry<P>>)
      returns (frontier: seq<Entry<P>>)
      requires Inv(s0) && Collecting(s0, first.time, skipped, [first], Now())
      modifies this`events, this`cancelledTasks
      ensures Collected(s0, first.time, frontier, Now())
    {
      ghost var dropped := skipped;
      frontier := [first];
      while events != {}
        invariant Collecting(s0, first.time, dropped, frontier, Now()) && frontier != []
        decreases |events|
      {
        var peek := HeapPeek();
        ghost var s := Now();
        if peek.time != first.time {
          CollectedAll(s0, first.time, dropped, frontier, s, peek);
          return;
        }
        var e, cancelled := PopChecked();
        SameTop(s0, first.time, dropped, frontier, s, peek, e);
        if cancelled {
          CollectDrop(s0, first.time, dropped, frontier, s, e);
          dropped := dropped + {e};
        } else {
          CollectTake(s0, first.time, dropped, frontier, s, e);
          frontier := frontier + [e];
        }
      }
      CollectDone(s0, first.time, dropped, frontier, Now());
    }

    method PushBack(entries: seq<Entry<P>>)
      modifies this`events
      ensures events == old(events) + (set e | e in entries)
    {
      var i := 0;
      while i < |entries|
        invariant 0 <= i <= |entries| && events == old(events) + (set e | e in entries[..i])
      {
        assert entries[..i + 1] == entries[..i] + [entries[i]];
        events := events + {entries[i]};
        i := i + 1;
      }
      assert entries[..|entries|] == entries;
    }

    /** Lets the policy pick, puts the others back, and moves the clock. */
    method ChooseAndPutBack<S>(policy: FrontierPolicy<S>, time: Time, frontier: seq<Entry<P>>, ghost s0: State<P>)
      returns (e: Entry<P>, ghost pick: nat)
      requires Collected(s0, time, frontier, Now())
      modifies this`events, this`clock, policy
      ensures e == Chosen(s0, pick) && Now() == Popped(s0, e)
      ensures Consulted(s0, policy.answer, old(policy.state), policy.state, pick)
    {
      var chosenIndex;
      chosenIndex, pick := Consult(policy, time, frontier, s0);
      e := Keep(time, frontier, chosenIndex, s0);
    }

    /** Keeps one entry of the frontier out of the queue. */
    method Keep(time: Time, frontier: seq<Entry<P>>, chosenIndex: nat, ghost s0: State<P>) returns (e: Entry<P>)
      requires Collected(s0, time, frontier, Now()) && chosenIndex < |frontier|
      modifies this`events, this`clock
      ensures e == frontier[chosenIndex] && Now() == Popped(s0, e)
    {
      PutBack(s0, time, frontier, Now(), chosenIndex);
      e := frontier[chosenIndex];
      PushBack(SwapRemove(frontier, chosenIndex));
      clock := time;
    }

    /** Asks the policy, if there is a choice, and brings its answer into range. */
    method Consult<S>(policy: FrontierPolicy<S>, time: Time, frontier: seq<Entry<P>>, ghost s0: State<P>)
      returns (chosenIndex: nat, ghost pick: nat)
      requires Collected(s0, time, frontier, Now())
      modifies policy
      ensures Consulted(s0, policy.answer, old(policy.state), policy.state, pick)
      ensures chosenIndex == Clamp(pick, |frontier|) < |frontier| && frontier[chosenIndex] == Chosen(s0, pick)
    {
      pick := 0;
      chosenIndex := 0;
      if |frontier| > 1 {
        chosenIndex := policy.Choose(time, DescribeAll(frontier));
        pick := chosenIndex;
      }
      chosenIndex := Clamp(chosenIndex, |frontier|);
    }

    /**
     * For every policy, even one answering out of range: a live entry of least time, the one the
     * policy picked from the frontier when there was a choice, and the state of the kernel's pop.
     */
    method PopWithPolicy<S>(policy: FrontierPolicy<S>) returns (r: Option<Entry<P>>, ghost pick: nat)
      requires Inv(Now())
      modifies this`events, this`cancelledTasks, this`clock, policy
      ensures r.None? <==> Live(old(Now())) == {}
      ensures r.None? ==> Now() == Sweep(old(Now()), MAX_NANOS) && policy.state == old(policy.state)
      ensures r.Some? ==> r.value == Chosen(old(Now()), pick) && Now() == Popped(old(Now()), r.value)
      ensures r.Some? ==> PickedAt(old(Now()), pick, r.value)
      ensures r.Some? ==> clock == r.value.time && OnlyTaken(old(Now()), r.value, Now())
      ensures r.Some? ==> Consulted(old(Now()), policy.answer, old(policy.state), policy.state, pick)
    {
      ghost var s0 := Now();
      var first;
      ghost var skipped, before;
      first, skipped, before := PopLive();
      if first.None? {
        AllSkipped(s0, skipped, before);
        return None, 0;
      }
      CollectStart(s0, skipped, before, first.value);
      var frontier := CollectFrontier(first.value, s0, skipped);
      var e;
      e, pick := ChooseAndPutBack(policy, first.value.time, frontier, s0);
      PoppedOnly(s0, e);
      ChosenIsPicked(s0, pick);
      r := Some(e);
    }

    method Perform(c: Command<P>)
      modifies this
      ensures Now() == Do(old(Now()), c)
      ensures c.Schedule? ==> var due := clock + c.delay;
              events == old(events) + {ComponentEvent(old(nextEventId) + 1,
                if due <= MAX_NANOS then due else MAX_NANOS, c.component, c.payload)}
      ensures c.Spawn? ==> var due := clock + c.delay; var id := mint(old(nextTaskId) + 1);
              && pendingTasks == old(pendingTasks)[id := c.task]
              && events == old(events)
                + {TaskEvent(old(nextEventId) + 1, if due <= MAX_NANOS then due else MAX_NANOS, id)}
      ensures c.Cancel? ==> pendingTasks == old(pendingTasks) - {c.id}
      ensures c.Cancel? && c.id in old(pendingTasks) ==> cancelledTasks == old(cancelledTasks) + {c.id}
      ensures c.Take? ==> completedTaskResults == old(completedTaskResults) - {c.id}
      ensures c.Defer? ==> deferredWakes == old(deferredWakes) + [c.wake]
    {
      match c
      case Schedule(delay, component, payload) => Schedule(delay, component, payload);
      case Spawn(delay, task) => var _ := ScheduleTask(delay, task);
      case Cancel(id) => var _ := Cancel(id);
      case Take(id) => var _ := TakeResult(id);
      case Defer(wake) => DeferWake(wake);
    }

    /** What the running component or closure does to the scheduler. */
    method PerformAll(cs: seq<Command<P>>)
      modifies this
      ensures Now() == DoAll(old(Now()), cs)
    {
      var i := 0;
      while i < |cs|
        invariant 0 <= i <= |cs|
        invariant DoAll(Now(), cs[i..]) == DoAll(old(Now()), cs)
      {
        assert cs[i..][1..] == cs[i + 1..];
        Perform(cs[i]);
        i := i + 1;
      }
    }

    /** Runs a pending task once; false when there is nothing to run. */
    method ExecuteTask(id: Uuid, work: Work<P>) returns (ran: bool)
      modifies this
      ensures Now() == Execute(old(Now()), id, work)
      ensures ran <==> id in old(pendingTasks) && id !in old(cancelledTasks)
      ensures !ran ==> Now() == old(Now()).(cancelled := old(cancelledTasks) - {id})
      ensures executingTaskId == old(executingTaskId)
    {
      if id in cancelledTasks {
        cancelledTasks := cancelledTasks - {id};
        return false;
      }
      if id !in pendingTasks {
        return false;
      }
      var task := pendingTasks[id];
      pendingTasks := pendingTasks - {id};
      var previous := executingTaskId;
      executingTaskId := Some(id);
      assert Now() == Started(old(Now()), id);
      PerformAll(work.commands);
      var again := Again(task, work.ok);
      if again.Some? {
        ScheduleTaskAt(Plus(clock, again.value.0), id, again.value.1);
      }
      assert Now() == RunTask(Started(old(Now()), id), task, work);
      executingTaskId := previous;
      ran := true;
      if id !in pendingTasks && !ResultOf(task, work).Unit? {
        completedTaskResults := completedTaskResults[id := ResultOf(task, work)];
      }
    }
  }

  /** A scheduler and its tie-break policy; `step` is told what the processed code does. */
  class Simulation<P(==), S> {
    const scheduler: Scheduler<P>
    const frontierPolicy: FrontierPolicy<S>

    constructor (scheduler: Scheduler<P>, policy: FrontierPolicy<S>)
      ensures this.scheduler == scheduler && frontierPolicy == policy
    {
      this.scheduler, frontierPolicy := scheduler, policy;
    }

    method ProcessEventEntry(e: Entry<P>, work: Work<P>)
      modifies scheduler
      ensures scheduler.Now() == Process(old(scheduler.Now()), e, work)
    {
      match e
      case ComponentEvent(_, _, _, _) => scheduler.PerformAll(work.commands);
      case TaskEvent(_, _, id) => var _ := scheduler.ExecuteTask(id, work);
    }

    /** Processes an entry, then drains the wakes deferred on the way. */
    method ProcessAndDrain(e: Entry<P>, work: Work<P>)
      modifies scheduler
      ensures scheduler.Now() == Drain(Process(old(scheduler.Now()), e, work))
    {
      ProcessEventEntry(e, work);
      scheduler.DrainDeferredWakes();
    }

    /** Pop, process, drain: one transition of the kernel, labelled with the policy's own answer. */
    method Step(work: Work<P>) returns (more: bool, ghost pick: nat)
      requires Inv(scheduler.Now())
      modifies scheduler, frontierPolicy
      ensures more <==> Live(old(scheduler.Now())) != {}
      ensures scheduler.Now() == Kernel.Step(old(scheduler.Now()), Label(pick, work))
      ensures more ==>
              Consulted(old(scheduler.Now()), frontierPolicy.answer, old(frontierPolicy.state), frontierPolicy.state,
                pick)
      ensures !more ==> frontierPolicy.state == old(frontierPolicy.state)
    {
      var event;
      ghost var start := scheduler.Now();
      event, pick := scheduler.PopWithPolicy(frontierPolicy);
      if event.None? {
        return false, pick;
      }
      ProcessAndDrain(event.value, work);
      more := true;
      StepOf(start, pick, work, event.value);
    }
  }

  lemma {:induction false} StepOf<P>(s: State<P>, pick: nat, work: Work<P>, e: Entry<P>)
    requires Live(s) != {} && e == Chosen(s, pick)
    ensures Drain(Process(Popped(s, e), e, work)) == Kernel.Step(s, Label(pick, work))
  {}

  /** The FIFO policy answers 0 on every frontier, so its runs are the kernel's FIFO runs. */
  lemma {:induction false} FifoAnswersZero<P>(s: State<P>)
    requires Inv(s) && Live(s) != {}
    ensures FifoChoice(DescribeAll(Sorted(Frontier(s)))) == 0
  {
    var l := Sorted(Frontier(s));
    FrontierOrdered(s, l);
    LeastIsFirst(l, DescribeAll(l));
  }

  lemma {:induction false} FrontierOrdered<P>(s: State<P>, l: seq<Entry<P>>)
    requires Inv(s) && Live(s) != {} && l == Sorted(Frontier(s))
    ensures l != [] && forall i :: 0 < i < |l| ==> l[0].eventId <= l[i].eventId
  {
    assert l[0] == Top(Frontier(s));
    forall i | 0 < i < |l| ensures l[0].eventId <= l[i].eventId {
      assert l[i] in l && l[i] in Frontier(s) && !Before(l[i], l[0]);
    }
  }

  /**
   * What a policy chooses from is exactly the live entries that no live entry precedes in time, by
   * increasing event id.
   */
  lemma {:induction false} FrontierInOrder<P>(s: State<P>)
    requires Inv(s) && Live(s) != {}
    ensures var l := Sorted(Frontier(s));
            && (forall e <- Live(s) :: e in l <==> forall f <- Live(s) :: e.time <= f.time)
            && (forall e <- l :: e in Live(s))
            && (forall i, j :: 0 <= i < j < |l| ==> l[i].eventId < l[j].eventId)
  {
    var l, top := Sorted(Frontier(s)), Top(Live(s));
    forall e <- Live(s) ensures e in l <==> forall f <- Live(s) :: e.time <= f.time {
      assert !Before(e, top) && forall f <- Live(s) :: !Before(f, top);
    }
    SortedIncreases(Frontier(s));
    forall i, j | 0 <= i < j < |l| ensures l[i].eventId < l[j].eventId {
      IncreasingAt(l, i, j);
      assert l[i] in l && l[j] in l;
    }
  }

  lemma {:induction false} SortedIncreases<P>(es: set<Entry<P>>)
    requires forall e <- es, f <- es :: e.eventId == f.eventId ==> e == f
    ensures Increasing(Sorted(es))
    decreases |es|
  {
    if es != {} {
      var top := Top(es);
      var rest := Sorted(es - {top});
      SortedIncreases(es - {top});
      assert Sorted(es)[1..] == rest;
      forall e <- rest ensures Before(top, e) {
        assert e in es && e != top && !Before(e, top);
      }
    }
  }

  lemma {:induction false} LeastIsFirst<P>(l: seq<Entry<P>>, d: seq<FrontierEvent>)
    requires l != [] && d == DescribeAll(l) && forall i :: 0 < i < |l| ==> l[0].eventId <= l[i].eventId
    ensures FifoChoice(d) == 0
  {
    var i := FifoChoice(d);
    assert d[i].eventId == l[i].eventId && d[0].eventId == l[0].eventId;
    assert d[0] in d;
  }

  /** Entry e is where the answer points to in the frontier, or the last one if it points past the end. */
  ghost predicate PickedAt<P>(s: State<P>, pick: nat, e: Entry<P>)
    requires Live(s) != {}
  {
    var frontier := Sorted(Frontier(s));
    |frontier| > 0 && e == frontier[if pick < |frontier| then pick else |frontier| - 1]
  }

  lemma {:induction false} ChosenIsPicked<P>(s: State<P>, pick: nat)
    requires Live(s) != {}
    ensures PickedAt(s, pick, Chosen(s, pick))
  {}

  /** A cancelled entry in front of e. */
  predicate SkippedBy<P>(s: State<P>, f: Entry<P>, e: Entry<P>) {
    && f.TaskEvent? && f.taskId in s.cancelled
    && (f.time < e.time || (f.time == e.time && f.eventId < e.eventId))
  }

  /** Entry e was taken out of the queue, with the cancelled entries due by then, and nothing else. */
  ghost predicate OnlyTaken<P>(s: State<P>, e: Entry<P>, r: State<P>) {
    forall f <- s.events :: f !in r.events <==>
      f == e || (f.TaskEvent? && f.taskId in s.cancelled && f.time <= e.time)
  }

  lemma {:induction false} PoppedOnly<P>(s: State<P>, e: Entry<P>)
    ensures OnlyTaken(s, e, Popped(s, e))
  {}

  /** A policy is asked exactly when there is a choice, about the frontier in heap order. */
  ghost predicate Consulted<P, S>(s: State<P>, answer: FrontierAnswer<S>, before: S, after: S, pick: nat)
    requires Live(s) != {}
  {
    var frontier := Sorted(Frontier(s));
    if |frontier| > 1 then (after, pick) == answer(before, Top(Live(s)).time, DescribeAll(frontier))
    else after == before && pick == 0
  }

  function Taken<P(==)>(s: State<P>, e: Entry<P>): State<P> {
    s.(events := s.events - {e})
  }

  /** A cancelled entry goes together with its mark. */
  function Dropped<P(==)>(s: State<P>, e: Entry<P>): State<P> {
    s.(events := s.events - {e}, cancelled := if e.TaskEvent? then s.cancelled - {e.taskId} else s.cancelled)
  }

  /** s is s0 without some cancelled entries, all of them ahead of what is left. */
  ghost predicate Skipping<P>(s0: State<P>, dropped: set<Entry<P>>, s: State<P>) {
    && dropped <= s0.events
    && (forall d <- dropped :: IsCancelled(s0, d))
    && (forall d <- dropped, f <- s.events :: Before(d, f))
    && s == Forget(s0, dropped)
  }

  lemma {:induction false} Skip<P>(s0: State<P>, dropped: set<Entry<P>>, s: State<P>, e: Entry<P>)
    requires Inv(s0) && Skipping(s0, dropped, s) && IsTop(e, s.events) && IsCancelled(s, e)
    ensures Skipping(s0, dropped + {e}, Dropped(s, e))
  {
    ForgetOneMore(s0, dropped, e);
    ForgetInv(s0, dropped);
  }

  lemma {:induction false} ForgetOneMore<P>(s: State<P>, dropped: set<Entry<P>>, e: Entry<P>)
    requires e.TaskEvent?
    ensures Forget(s, dropped + {e}) == Dropped(Forget(s, dropped), e)
  {
    var r := Forget(s, dropped);
    var q := Forget(s, dropped + {e});
    assert q.events == r.events - {e};
    assert q.cancelled == r.cancelled - {e.taskId};
  }

  lemma {:induction false} PoppedIsTop<P>(s0: State<P>, dropped: set<Entry<P>>, s: State<P>, e: Entry<P>)
    requires Inv(s0) && Skipping(s0, dropped, s) && IsTop(e, s.events) && !IsCancelled(s, e)
    ensures IsTop(e, Live(s0)) && PlainPopped(s0, e) == Taken(s, e).(clock := e.time)
  {
    ForgetInv(s0, dropped);
    assert e in Live(s);
    assert dropped == set f | f in s0.events && IsCancelled(s0, f) && Before(f, e);
  }

  lemma {:induction false} AllSkipped<P>(s0: State<P>, dropped: set<Entry<P>>, s: State<P>)
    requires Skipping(s0, dropped, s) && s.events == {}
    ensures Live(s0) == {} && s == Sweep(s0, MAX_NANOS)
  {
    forall e <- s0.events ensures e in dropped {
      assert e in dropped || e in s.events;
    }
    assert dropped == set e | e in s0.events && IsCancelled(s0, e) && e.time <= MAX_NANOS;
  }

  function Without<P(==)>(s: State<P>, taken: seq<Entry<P>>): State<P> {
    s.(events := s.events - (set e | e in taken))
  }

  /** s is s0 without some cancelled entries due by time t and some live ones due at t, taken in heap order. */
  ghost predicate Collecting<P>(s0: State<P>, t: Time, dropped: set<Entry<P>>, taken: seq<Entry<P>>, s: State<P>) {
    && dropped <= s0.events
    && (forall d <- dropped :: IsCancelled(s0, d) && d.time <= t)
    && (forall f <- Live(s0) :: t <= f.time)
    && Increasing(taken)
    && (forall x <- taken :: x in Live(s0) && x.time == t)
    && (forall x <- taken, f <- s.events :: Before(x, f))
    && s == Without(Forget(s0, dropped), taken)
  }

  /** The whole frontier has been taken, and every cancelled entry due with it dropped. */
  ghost predicate Collected<P>(s0: State<P>, t: Time, taken: seq<Entry<P>>, s: State<P>) {
    && Live(s0) != {} && Top(Live(s0)).time == t
    && Increasing(taken) && taken != [] && taken == Sorted(Frontier(s0))
    && s == Without(Sweep(s0, t), taken)
  }

  lemma {:induction false} CollectStart<P>(s0: State<P>, dropped: set<Entry<P>>, s: State<P>, e: Entry<P>)
    requires Inv(s0) && Skipping(s0, dropped, s) && IsTop(e, s.events) && !IsCancelled(s, e)
    ensures Collecting(s0, e.time, dropped, [e], Taken(s, e))
  {
    PoppedIsTop(s0, dropped, s, e);
    assert (set x | x in [e]) == {e};
  }

  lemma {:induction false} SameTop<P>(
      s0: State<P>, t: Time, dropped: set<Entry<P>>, taken: seq<Entry<P>>, s: State<P>, a: Entry<P>, b: Entry<P>)
    requires Inv(s0) && Collecting(s0, t, dropped, taken, s) && IsTop(a, s.events) && IsTop(b, s.events)
    ensures a == b
  {}

  lemma {:induction false} CollectDrop<P>(
      s0: State<P>, t: Time, dropped: set<Entry<P>>, taken: seq<Entry<P>>, s: State<P>, e: Entry<P>)
    requires Inv(s0) && Collecting(s0, t, dropped, taken, s) && e in s.events && e.time == t && IsCancelled(s, e)
    ensures Collecting(s0, t, dropped + {e}, taken, Dropped(s, e))
  {
    ForgetOneMore(s0, dropped, e);
    assert Dropped(s, e).events == Without(Forget(s0, dropped + {e}), taken).events;
  }

  lemma {:induction false} CollectTake<P>(
      s0: State<P>, t: Time, dropped: set<Entry<P>>, taken: seq<Entry<P>>, s: State<P>, e: Entry<P>)
    requires Inv(s0) && Collecting(s0, t, dropped, taken, s) && IsTop(e, s.events) && e.time == t && !IsCancelled(s, e)
    ensures Collecting(s0, t, dropped, taken + [e], Taken(s, e))
  {
    ForgetInv(s0, dropped);
    assert e in Live(Forget(s0, dropped));
    IncreasingSnoc(taken, e);
    assert Taken(s, e).events == Without(Forget(s0, dropped), taken + [e]).events;
  }

  lemma {:induction false} CollectedAll<P>(
      s0: State<P>, t: Time, dropped: set<Entry<P>>, taken: seq<Entry<P>>, s: State<P>, peek: Entry<P>)
    requires Collecting(s0, t, dropped, taken, s) && taken != [] && IsTop(peek, s.events) && peek.time != t
    ensures Collected(s0, t, taken, s)
  {
    forall f <- s.events ensures f.time != t {
      assert Before(taken[0], peek) && !Before(f, peek);
    }
    CollectDone(s0, t, dropped, taken, s);
  }

  lemma {:induction false} CollectDone<P>(
      s0: State<P>, t: Time, dropped: set<Entry<P>>, taken: seq<Entry<P>>, s: State<P>)
    requires Collecting(s0, t, dropped, taken, s) && taken != [] && forall f <- s.events :: f.time != t
    ensures Collected(s0, t, taken, s)
  {
    assert taken[0] in Live(s0);
    assert Top(Live(s0)).time == t by {
      assert !Before(taken[0], Top(Live(s0)));
    }
    forall f <- Frontier(s0) ensures f in taken {
      assert f in s.events || f in taken;
    }
    SortedUnique(Frontier(s0), taken);
    forall f <- s0.events | IsCancelled(s0, f) && f.time <= t ensures f in dropped {
      assert f in dropped || f in s.events;
      assert f in s.events ==> Before(taken[0], f);
    }
    assert dropped == set f | f in s0.events && IsCancelled(s0, f) && f.time <= t;
  }

  lemma {:induction false} SwapRemoveElements<P>(l: seq<Entry<P>>, i: nat)
    requires Increasing(l) && i < |l|
    ensures (set e | e in SwapRemove(l, i)) == (set e | e in l) - {l[i]}
  {
    var r := SwapRemove(l, i);
    forall e <- r ensures e in l && e != l[i] {
      var k :| 0 <= k < |r| && r[k] == e;
      var j := if k == i then |l| - 1 else k;
      if j < i { IncreasingAt(l, j, i); } else { IncreasingAt(l, i, j); }
    }
    forall e <- l | e != l[i] ensures e in r {
      var j :| 0 <= j < |l| && l[j] == e;
      assert r[if j == |l| - 1 then i else j] == e;
    }
  }

  /** Pushing the unchosen frontier entries back completes the kernel's pop. */
  lemma {:induction false} PutBack<P>(s0: State<P>, t: Time, taken: seq<Entry<P>>, s: State<P>, i: nat)
    requires Collected(s0, t, taken, s) && i < |taken|
    ensures s.(events := s.events + (set e | e in SwapRemove(taken, i)), clock := t) == Popped(s0, taken[i])
  {
    SwapRemoveElements(taken, i);
    var w := Sweep(s0, t);
    forall e <- taken ensures e in w.events {
      assert e in Live(s0);
    }
    assert s.events + (set e | e in SwapRemove(taken, i)) == w.events - {taken[i]};
  }
}
