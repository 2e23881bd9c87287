/** Retry and periodic tasks: when their executions happen and how many there are. */
module TaskChains {
  import opened SimTime
  import opened Options
  import opened Ids
  import opened Kernel
  import opened KernelInvariants
  import opened KernelRuns

  /** Whether a move of a run executes task `id`. */
  ghost predicate Executes<P>(s: State<P>, m: Move<P>, id: Uuid) {
    m.Turn? && Live(s) != {} && Runs(Chosen(s, m.l.pick), id)
  }

  /** How often a run executes task `id`. */
  ghost function ExecutionCount<P>(s: State<P>, ms: seq<Move<P>>, id: Uuid): nat
    decreases |ms|
  {
    if ms == [] then 0
    else (if Executes(s, ms[0], id) then 1 else 0) + ExecutionCount(Make(s, ms[0]), ms[1..], id)
  }

  /** Task `id` is pending as `t` and due at `due`. */
  ghost predicate DueAs<P>(s: State<P>, id: Uuid, t: Task, due: nat) {
    id in s.pending && s.pending[id] == t && forall e <- s.events :: Runs(e, id) ==> e.time == due
  }

  /**
   * How a task stands in r after running as `t` at time `now`: re-scheduled as `Again` says, or
   * finished with its result stored.
   */
  ghost predicate RanAs<P>(r: State<P>, id: Uuid, t: Task, w: Work<P>, now: Time) {
    match Again(t, w.ok)
    case Some((delay, next)) => DueAs(r, id, next, Plus(now, delay)) && id !in r.completed
    case None =>
      Gone(r, id)
      && (if ResultOf(t, w).Unit? then id !in r.completed
          else id in r.completed && r.completed[id] == ResultOf(t, w))
  }

  lemma {:induction false} NoneQueued<P>(s: State<P>, id: Uuid)
    requires Inv(s) && id !in s.pending && id !in s.cancelled
    ensures forall e <- s.events :: !Runs(e, id)
  {
    forall e <- s.events | e.TaskEvent? ensures e.taskId in QueuedIds(s) {}
  }

  lemma {:induction false} ExecuteRunsTask<P>(s: State<P>, id: Uuid, w: Work<P>)
    requires id in s.pending && id !in s.cancelled && s.executing.None?
    requires Inv(Started(s, id)) && RunningOk(Started(s, id)) && Execute(s, id, w).nextTask < W
    ensures RanAs(Execute(s, id, w), id, s.pending[id], w, s.clock)
  {
    var st := Started(s, id);
    var d := DoAll(st, w.commands);
    DoAllInv(st, w.commands);
    DoAllKeeps(st, w.commands, id);
    NoneQueued(st, id);
    SameIssued(st, Execute(s, id, w));
  }

  lemma {:induction false} StepRunsTask<P>(s: State<P>, l: Label<P>, id: Uuid)
    requires Idle(s) && Live(s) != {} && Runs(Chosen(s, l.pick), id) && Step(s, l).nextTask < W
    ensures id in s.pending && RanAs(Step(s, l), id, s.pending[id], l.work, Chosen(s, l.pick).time)
  {
    var e := Chosen(s, l.pick);
    PopCorrect(s, l.pick);
    var p := Popped(s, e);
    var q := Process(p, e, l.work);
    DrainAllNextTask(q, q.deferred);
    ExecuteRunsTask(p, id, l.work);
    DrainAllKeeps(q, q.deferred, id);
    SameIssued(q, Step(s, l));
  }

  // ----- the same by the kind of task -----

  /** Task `id` is pending as `t` with an entry queued, and every entry it has is due at `due`. */
  ghost predicate WaitsAs<P>(s: State<P>, id: Uuid, t: Task, due: nat) {
    DueAs(s, id, t, due) && exists e <- s.events :: Runs(e, id)
  }

  /** Task `id` is over: it is not pending and has no entry. */
  ghost predicate Over<P>(s: State<P>, id: Uuid) {
    id !in s.pending && forall e <- s.events :: !Runs(e, id)
  }

  lemma {:induction false} RanWaits<P>(s: State<P>, l: Label<P>, id: Uuid)
    requires Idle(s) && Live(s) != {} && Runs(Chosen(s, l.pick), id) && Step(s, l).nextTask < W
    ensures var r := Step(s, l);
            && id in s.pending && r.clock == Chosen(s, l.pick).time
            && RanAs(r, id, s.pending[id], l.work, r.clock)
            && (id in r.pending ==> exists e <- r.events :: Runs(e, id))
            && (id !in r.pending ==> Over(r, id))
  {
    var r := Step(s, l);
    StepRunsTask(s, l, id);
    StepSpends(s, l);
    StepInv(s, l);
    if id in r.pending {
      assert id in QueuedIds(r);
    } else {
      NotCancelledByItself(s, l, id);
      NoneQueued(r, id);
    }
  }

  /** A task that runs is not marked as cancelled afterwards: cancelling itself has no effect. */
  lemma {:induction false} NotCancelledByItself<P>(s: State<P>, l: Label<P>, id: Uuid)
    requires Idle(s) && Live(s) != {} && Runs(Chosen(s, l.pick), id) && Step(s, l).nextTask < W
    ensures id !in Step(s, l).cancelled
  {
    var e := Chosen(s, l.pick);
    PopCorrect(s, l.pick);
    var p := Popped(s, e);
    var q := Process(p, e, l.work);
    DrainAllNextTask(q, q.deferred);
    RunTaskInv(Started(p, id), p.pending[id], l.work);
    DrainAllCancelled(q, q.deferred);
  }

  lemma {:induction false} DrainAllCancelled<P>(s: State<P>, ds: seq<Deferred<P>>)
    ensures DrainAll(s, ds).cancelled == s.cancelled
    decreases |ds|
  {
    if ds != [] {
      DrainAllCancelled(PushComponent(s, ds[0].delay, ds[0].component, ds[0].payload), ds[1..]);
    }
  }

  lemma {:induction false} RanGoesOn<P>(s: State<P>, l: Label<P>, id: Uuid, delay: Time, next: Task)
    requires Idle(s) && Live(s) != {} && Runs(Chosen(s, l.pick), id) && Step(s, l).nextTask < W
    requires id in s.pending && Again(s.pending[id], l.work.ok) == Some((delay, next))
    ensures WaitsAs(Step(s, l), id, next, Plus(Step(s, l).clock, delay)) && id !in Step(s, l).completed
  {
    RanWaits(s, l, id);
  }

  /** The result that task `id` left. */
  ghost predicate Left<P>(s: State<P>, id: Uuid, result: Output) {
    id in s.completed && s.completed[id] == result
  }

  lemma {:induction false} PowersWrap(k: nat)
    ensures WrappingPow2(k) == if k < 64 then Pow2(k) else 0
  {
    Pow2Of64();
    if k < 64 {
      Pow2Sum(k, 64 - k);
      Pow2AtLeastTwo(64 - k);
      assert Pow2(k) < W by {
        assert Pow2(k) * 2 <= Pow2(k) * Pow2(64 - k);
      }
    } else {
      Pow2Sum(64, k - 64);
      assert (W * Pow2(k - 64)) % W == 0;
    }
  }

  lemma {:induction false} Pow2AtLeastTwo(k: nat)
    requires k > 0
    ensures Pow2(k) >= 2
  {}

  /** How long the wait after attempt k is meant to be; from attempt 64 on the power has wrapped to zero. */
  function Wait(base: Time, k: nat): nat {
    if k < 64 then base * Pow2(k) else 0
  }

  lemma {:induction false} AgainAfterFailure(max: nat, k: nat, base: Time) returns (delay: Time)
    requires k + 1 < max
    ensures Again(Retry(max, k, base), false) == Some((delay, Retry(max, k + 1, base)))
    ensures delay == Saturate(Wait(base, k))
  {
    PowersWrap(k);
    delay := Scale(base, WrappingPow2(k));
  }

  lemma {:induction false} CappedTwice(now: Time, delay: Time, wait: nat)
    requires delay == Saturate(wait)
    ensures Plus(now, delay) == Saturate(now + wait)
  {}

  /**
   * A failed attempt number k (from 0) that is not the last goes on under the same id: the next
   * attempt is due base * 2^k later, at most at the end of time (at once from attempt 64 on).
   */
  lemma {:induction false} FailedAttemptGoesOn<P>(s: State<P>, l: Label<P>, id: Uuid, max: nat, k: nat, base: Time)
    requires Idle(s) && Live(s) != {} && Runs(Chosen(s, l.pick), id) && Step(s, l).nextTask < W
    requires id in s.pending && s.pending[id] == Retry(max, k, base)
    requires !l.work.ok && k + 1 < max
    ensures var r := Step(s, l);
            WaitsAs(r, id, Retry(max, k + 1, base), Saturate(r.clock + Wait(base, k))) && id !in r.completed
  {
    var delay := AgainAfterFailure(max, k, base);
    RanGoesOn(s, l, id, delay, Retry(max, k + 1, base));
    CappedTwice(Step(s, l).clock, delay, Wait(base, k));
  }

  /** A success, or a failure of the last attempt, ends the chain, and its outcome is the result. */
  lemma {:induction false} LastAttemptEnds<P>(s: State<P>, l: Label<P>, id: Uuid, max: nat, k: nat, base: Time)
    requires Idle(s) && Live(s) != {} && Runs(Chosen(s, l.pick), id) && Step(s, l).nextTask < W
    requires id in s.pending && s.pending[id] == Retry(max, k, base)
    requires l.work.ok || k + 1 >= max
    ensures var r := Step(s, l);
            && Over(r, id) && id in r.completed && r.completed[id].Attempted? && r.completed[id].ok == l.work.ok
            && (l.work.output.Value? ==> r.completed[id].value == l.work.output.value)
  {
    RanWaits(s, l, id);
  }

  lemma {:induction false} AgainPeriodically(interval: Time, remaining: Option<nat>, ok: bool)
    returns (left: Option<nat>)
    requires remaining != Some(1)
    ensures Again(Periodic(interval, remaining), ok) == Some((interval, Periodic(interval, left)))
    ensures left == if remaining.None? then None
                    else if remaining.value == 0 then Some(0xFFFF_FFFF) else Some(remaining.value - 1)
  {
    left := if remaining.None? then None else Some(Decrement(remaining.value));
  }

  /**
   * An execution of a periodic task is followed by the next one an interval later, unless it was
   * the last of its count; a count of zero is first taken to 2^32 - 1. No result is ever stored.
   */
  lemma {:induction false} PeriodicGoesOn<P>(
      s: State<P>, l: Label<P>, id: Uuid, interval: Time, remaining: Option<nat>)
    requires Idle(s) && Live(s) != {} && Runs(Chosen(s, l.pick), id) && Step(s, l).nextTask < W
    requires id in s.pending && s.pending[id] == Periodic(interval, remaining)
    ensures id !in Step(s, l).completed
    ensures remaining == Some(1) ==> Over(Step(s, l), id)
    ensures remaining != Some(1) ==>
              var left := if remaining.None? then None
                          else if remaining.value == 0 then Some(0xFFFF_FFFF) else Some(remaining.value - 1);
              WaitsAs(Step(s, l), id, Periodic(interval, left), Saturate(Step(s, l).clock + interval))
  {
    if remaining == Some(1) {
      RanWaits(s, l, id);
    } else {
      var left := AgainPeriodically(interval, remaining, l.work.ok);
      RanGoesOn(s, l, id, interval, Periodic(interval, left));
    }
  }

  /** A one-off task is over after its execution; its result is stored unless it is the unit. */
  lemma {:induction false} OnceEnds<P>(s: State<P>, l: Label<P>, id: Uuid)
    requires Idle(s) && Live(s) != {} && Runs(Chosen(s, l.pick), id) && Step(s, l).nextTask < W
    requires id in s.pending && s.pending[id] == Once
    ensures var r := Step(s, l);
            Over(r, id) && if l.work.output.Unit? then id !in r.completed else Left(r, id, l.work.output)
  {
    RanWaits(s, l, id);
  }

  /** Once over, a task is never executed again. */
  lemma {:induction false} OverForGood<P>(s: State<P>, ms: seq<Move<P>>, id: Uuid)
    requires Idle(s) && Issued(s, id) && id !in s.pending && Run(s, ms).nextTask < W
    ensures ExecutionCount(s, ms, id) == 0
    decreases |ms|
  {
    if ms != [] {
      RunNextTask(Make(s, ms[0]), ms[1..]);
      GoneKept(s, ms[0], id);
      MakeInv(s, ms[0]);
      assert Executes(s, ms[0], id) ==> Chosen(s, ms[0].l.pick) in ProcessedBy(s, ms[0]);
      OverForGood(Make(s, ms[0]), ms[1..], id);
    }
  }

  /** So no attempt follows a success. */
  lemma {:induction false} NothingAfterSuccess<P>(
      s: State<P>, l: Label<P>, ms: seq<Move<P>>, id: Uuid, max: nat, k: nat, base: Time)
    requires Idle(s) && Live(s) != {} && Runs(Chosen(s, l.pick), id) && Run(Step(s, l), ms).nextTask < W
    requires id in s.pending && s.pending[id] == Retry(max, k, base) && l.work.ok
    ensures ExecutionCount(Step(s, l), ms, id) == 0
  {
    RunNextTask(Step(s, l), ms);
    StepInv(s, l);
    StepRunsTask(s, l, id);
    OverForGood(Step(s, l), ms, id);
  }

  // ----- chains of executions under one id -----

  /** A plan for a chain: its k-th execution is as `shape(k)` and due at `due(k)`, for k below `limit`. */
  datatype Plan = Plan(shape: nat -> Task, due: nat -> nat, limit: nat)

  /** Executing a task of the plan re-schedules it, if at all, as the next one of the plan. */
  ghost predicate Coherent(p: Plan) {
    forall k: nat, ok: bool {:trigger Again(p.shape(k), ok)} :: k < p.limit ==>
      match Again(p.shape(k), ok)
      case None => true
      case Some((delay, next)) =>
        k + 1 < p.limit && next == p.shape(k + 1) && p.due(k) <= MAX_NANOS && Plus(p.due(k), delay) == p.due(k + 1)
  }

  /** Executions that end in one of the given ways, in success or in failure, can end the plan only at its limit. */
  ghost predicate Unstoppable(p: Plan, endings: set<bool>) {
    forall k: nat, ok <- endings {:trigger Again(p.shape(k), ok)} :: k < p.limit && Again(p.shape(k), ok).None? ==>
      k + 1 == p.limit
  }

  /** Every execution of task `id` in the run ends in one of the given ways. */
  ghost predicate EndsIn<P>(s: State<P>, ms: seq<Move<P>>, id: Uuid, endings: set<bool>)
    decreases |ms|
  {
    ms != [] ==>
      && (Executes(s, ms[0], id) ==> ms[0].l.work.ok in endings)
      && EndsIn(Make(s, ms[0]), ms[1..], id, endings)
  }

  /** After k executions the task is due for the next one of the plan, or it is gone. */
  ghost predicate OnPlan<P>(s: State<P>, id: Uuid, p: Plan, k: nat) {
    Issued(s, id) && (id in s.pending ==> k < p.limit && DueAs(s, id, p.shape(k), p.due(k)))
  }

  ghost predicate CancelsIn<P>(m: Move<P>, id: Uuid) {
    Cancel(id) in (if m.Turn? then m.l.work.commands else m.commands)
  }

  ghost predicate NeverCancels<P>(ms: seq<Move<P>>, id: Uuid) {
    forall m <- ms :: !CancelsIn(m, id)
  }

  /** A move that does not execute the task can at most cancel it. */
  lemma {:induction false} MoveKeeps<P>(s: State<P>, m: Move<P>, id: Uuid)
    requires Idle(s) && Issued(s, id) && Make(s, m).nextTask < W && !Executes(s, m, id)
    ensures AtMostCancelled(s, Make(s, m), id)
    ensures !CancelsIn(m, id) && id in s.pending ==> id in Make(s, m).pending
  {
    match m
    case Turn(l) => StepKeeps(s, l, id);
    case Drive(cs) => DoAllKeeps(s, cs, id);
  }

  lemma {:induction false} ChainMove<P>(s: State<P>, m: Move<P>, id: Uuid, p: Plan, k: nat, endings: set<bool>)
    requires Idle(s) && Make(s, m).nextTask < W && OnPlan(s, id, p, k) && Coherent(p)
    ensures !Executes(s, m, id) ==> OnPlan(Make(s, m), id, p, k)
    ensures !Executes(s, m, id) && !CancelsIn(m, id) && id in s.pending ==> id in Make(s, m).pending
    ensures Executes(s, m, id) ==>
              && k < p.limit && Chosen(s, m.l.pick).time == p.due(k) && OnPlan(Make(s, m), id, p, k + 1)
              && (Unstoppable(p, endings) && m.l.work.ok in endings && k + 1 < p.limit ==> id in Make(s, m).pending)
  {
    var r := Make(s, m);
    MakeNextTask(s, m);
    SameIssued(s, r);
    if Executes(s, m, id) {
      PopCorrect(s, m.l.pick);
      StepRunsTask(s, m.l, id);
      var again := Again(p.shape(k), m.l.work.ok);
    } else {
      MoveKeeps(s, m, id);
    }
  }

  /**
   * From execution k on, every execution of task `id` in the run is the plan's next one, happens at
   * exactly its planned time, and the plan is never overrun.
   */
  ghost predicate RunFollows<P>(s: State<P>, ms: seq<Move<P>>, id: Uuid, p: Plan, k: nat)
    decreases |ms|
  {
    ms != [] ==>
      if Executes(s, ms[0], id) then
        && k < p.limit && Chosen(s, ms[0].l.pick).time == p.due(k)
        && RunFollows(Make(s, ms[0]), ms[1..], id, p, k + 1)
      else
        RunFollows(Make(s, ms[0]), ms[1..], id, p, k)
  }

  lemma {:induction false} ChainRun<P>(s: State<P>, ms: seq<Move<P>>, id: Uuid, p: Plan, k: nat)
    requires Idle(s) && Run(s, ms).nextTask < W && OnPlan(s, id, p, k) && Coherent(p)
    ensures RunFollows(s, ms, id, p, k)
    decreases |ms|
  {
    if ms != [] {
      var r := Make(s, ms[0]);
      RunNextTask(r, ms[1..]);
      MakeInv(s, ms[0]);
      ChainMove(s, ms[0], id, p, k, {});
      ChainRun(r, ms[1..], id, p, if Executes(s, ms[0], id) then k + 1 else k);
    }
  }

  lemma {:induction false} CountBounded<P>(s: State<P>, ms: seq<Move<P>>, id: Uuid, p: Plan, k: nat)
    requires RunFollows(s, ms, id, p, k) && k <= p.limit
    ensures k + ExecutionCount(s, ms, id) <= p.limit
    decreases |ms|
  {
    if ms != [] {
      CountBounded(Make(s, ms[0]), ms[1..], id, p, if Executes(s, ms[0], id) then k + 1 else k);
    }
  }

  /** A chain that is not cancelled is pending until its plan is complete. */
  lemma {:induction false} ChainCompletes<P>(
      s: State<P>, ms: seq<Move<P>>, id: Uuid, p: Plan, k: nat, endings: set<bool>)
    requires Idle(s) && Run(s, ms).nextTask < W && OnPlan(s, id, p, k) && Coherent(p)
    requires Unstoppable(p, endings) && EndsIn(s, ms, id, endings)
    requires NeverCancels(ms, id) && id in s.pending && k + ExecutionCount(s, ms, id) < p.limit
    ensures id in Run(s, ms).pending
    decreases |ms|
  {
    if ms != [] {
      var r := Make(s, ms[0]);
      RunNextTask(r, ms[1..]);
      MakeInv(s, ms[0]);
      ChainMove(s, ms[0], id, p, k, endings);
      ChainCompletes(r, ms[1..], id, p, if Executes(s, ms[0], id) then k + 1 else k, endings);
    }
  }

  /** Run until nothing is queued and never cancelled, an unstoppable chain has made all its executions. */
  lemma {:induction false} ChainExhausted<P>(s: State<P>, ms: seq<Move<P>>, id: Uuid, p: Plan, endings: set<bool>)
    requires Idle(s) && Run(s, ms).nextTask < W && OnPlan(s, id, p, 0) && Coherent(p)
    requires Unstoppable(p, endings) && EndsIn(s, ms, id, endings)
    requires NeverCancels(ms, id) && id in s.pending && Run(s, ms).events == {}
    ensures ExecutionCount(s, ms, id) >= p.limit
  {
    EmptyQueueLeaksNothing(s, ms);
    if ExecutionCount(s, ms, id) < p.limit {
      ChainCompletes(s, ms, id, p, 0, endings);
    }
  }

  /** Along any run, a chain due for the first execution of its plan follows the plan. */
  lemma {:induction false} PlanFollowed<P>(s: State<P>, ms: seq<Move<P>>, id: Uuid, p: Plan, endings: set<bool>)
    requires Idle(s) && Run(s, ms).nextTask < W && OnPlan(s, id, p, 0) && Coherent(p)
    ensures RunFollows(s, ms, id, p, 0)
    ensures ExecutionCount(s, ms, id) <= p.limit
    ensures Unstoppable(p, endings) && EndsIn(s, ms, id, endings) && id in s.pending && NeverCancels(ms, id) ==>
              Run(s, ms).events == {} ==> ExecutionCount(s, ms, id) == p.limit
  {
    ChainRun(s, ms, id, p, 0);
    CountBounded(s, ms, id, p, 0);
    if Unstoppable(p, endings) && EndsIn(s, ms, id, endings) && id in s.pending && NeverCancels(ms, id)
       && Run(s, ms).events == {} {
      ChainExhausted(s, ms, id, p, endings);
    }
  }

  // ----- retries -----

  /** When attempt k (from 0) of a retry chain is due: each wait is twice the one before. */
  function RetryTime(first: nat, base: nat, k: nat): (t: nat)
    ensures t >= first
  {
    if k == 0 then first else RetryTime(first, base, k - 1) + base * Pow2(k - 1)
  }

  lemma {:induction false} RetryTimeClosedForm(first: nat, base: nat, k: nat)
    ensures RetryTime(first, base, k) == first + base * (Pow2(k) - 1)
  {
    if k > 0 {
      RetryTimeClosedForm(first, base, k - 1);
      var p := Pow2(k - 1);
      assert base * (2 * p - 1) == base * (p - 1) + base * p;
    }
  }

  lemma {:induction false} RetryTimeGrows(first: nat, base: nat, i: nat, j: nat)
    requires i <= j
    ensures RetryTime(first, base, i) <= RetryTime(first, base, j)
  {
    if i < j {
      RetryTimeGrows(first, base, i, j - 1);
    }
  }

  /** While the last attempt's time is representable, no delay saturates or wraps. */
  lemma {:induction false} NextRetryTime(first: Time, base: Time, max: nat, k: nat)
    requires k + 1 < max && RetryTime(first, base, max - 1) <= MAX_NANOS
    ensures RetryTime(first, base, k) <= MAX_NANOS
    ensures Plus(RetryTime(first, base, k), Scale(base, WrappingPow2(k))) == RetryTime(first, base, k + 1)
  {
    RetryTimeGrows(first, base, k + 1, max - 1);
    var p := Pow2(k);
    if base > 0 {
      ScaleGrows(p, 1, base);
      assert p < W && p % W == p;
    }
  }

  lemma {:induction false} ScaleGrows(c: nat, x: nat, y: nat)
    requires x <= y
    ensures x * c <= y * c
  {}

  function RetryPlan(first: nat, base: Time, max: nat): Plan {
    Plan((k: nat) => Retry(max, k, base), (k: nat) => RetryTime(first, base, k), if max < 1 then 1 else max)
  }

  lemma {:induction false} RetryPlanCoherent(first: Time, base: Time, max: nat)
    requires max >= 1 ==> RetryTime(first, base, max - 1) <= MAX_NANOS
    ensures Coherent(RetryPlan(first, base, max)) && Unstoppable(RetryPlan(first, base, max), {false})
  {
    forall k: nat | k + 1 < max
      ensures RetryTime(first, base, k) <= MAX_NANOS
      ensures Plus(RetryTime(first, base, k), Scale(base, WrappingPow2(k))) == RetryTime(first, base, k + 1)
    {
      NextRetryTime(first, base, max, k);
    }
  }

  /**
   * A retry task first due at `first` makes its attempt number i (from 0) at RetryTime(first, base, i),
   * which is first + base * (2^i - 1), and makes at most max(1, maxAttempts) of them, whatever else
   * the simulation does; exactly so many if they all fail, nobody cancels it, and the run goes on
   * until the queue is empty.
   */
  lemma {:induction false} RetryTiming<P>(s: State<P>, ms: seq<Move<P>>, id: Uuid, first: Time, base: Time, max: nat)
    requires Idle(s) && Run(s, ms).nextTask < W
    requires DueAs(s, id, Retry(max, 0, base), first)
    requires max >= 1 ==> RetryTime(first, base, max - 1) <= MAX_NANOS
    ensures RunFollows(s, ms, id, RetryPlan(first, base, max), 0)
    ensures ExecutionCount(s, ms, id) <= if max < 1 then 1 else max
    ensures EndsIn(s, ms, id, {false}) && NeverCancels(ms, id) && Run(s, ms).events == {} ==>
              ExecutionCount(s, ms, id) == if max < 1 then 1 else max
  {
    RetryPlanCoherent(first, base, max);
    PlanFollowed(s, ms, id, RetryPlan(first, base, max), {false});
  }

  // ----- where chains come from -----

  lemma {:induction false} SpawnIsDue<P>(s: State<P>, delay: Time, t: Task)
    requires Inv(s) && s.nextTask + 1 < W
    ensures var r, id := SpawnTask(s, delay, t), s.mint(s.nextTask + 1);
            !Issued(s, id) && Issued(r, id) && DueAs(r, id, t, Plus(s.clock, delay))
  {
    var r, id := SpawnTask(s, delay, t), s.mint(s.nextTask + 1);
    SpawnIdIsNew(s);
    NoneQueued(s, id);
    assert 1 <= r.nextTask && r.mint(r.nextTask) == id;
  }

  /**
   * A task scheduled by a list of commands is due its delay after the present instant, capped, under
   * an id that is new, unless a later command cancels it.
   */
  lemma {:induction false} SpawnedIsDue<P>(
      s: State<P>, before: seq<Command<P>>, delay: Time, t: Task, after: seq<Command<P>>, id: Uuid)
    requires Inv(s) && DoAll(s, before + [Spawn(delay, t)] + after).nextTask < W
    requires id == s.mint(DoAll(s, before).nextTask + 1)
    ensures !Issued(s, id) && Issued(DoAll(s, before + [Spawn(delay, t)] + after), id)
    ensures var due := s.clock + delay;
            Cancel(id) !in after ==>
              DueAs(DoAll(s, before + [Spawn(delay, t)] + after), id, t, if due <= MAX_NANOS then due else MAX_NANOS)
  {
    var b := DoAll(s, before);
    var c := SpawnTask(b, delay, t);
    DoAllAround(s, before, Spawn(delay, t), after);
    DoAllInv(s, before);
    SameIssued(s, b);
    SpawnIsDue(b, delay, t);
    SpawnInv(b, delay, t);
    SameIssued(c, DoAll(c, after));
    DoAllKeeps(c, after, id);
  }

  /** So a retry task scheduled by a driver follows its plan from its delay on, in every run. */
  lemma {:induction false} SpawnedRetryTiming<P>(
      s: State<P>, before: seq<Command<P>>, delay: Time, base: Time, max: nat, after: seq<Command<P>>,
      ms: seq<Move<P>>, id: Uuid)
    requires Idle(s) && id == s.mint(DoAll(s, before).nextTask + 1) && Cancel(id) !in after
    requires Run(DoAll(s, before + [Spawn(delay, Retry(max, 0, base))] + after), ms).nextTask < W
    requires RetryTime(s.clock + delay, base, if max < 1 then 0 else max - 1) <= MAX_NANOS
    ensures var r := DoAll(s, before + [Spawn(delay, Retry(max, 0, base))] + after);
            && RunFollows(r, ms, id, RetryPlan(s.clock + delay, base, max), 0)
            && ExecutionCount(r, ms, id) <= (if max < 1 then 1 else max)
            && (EndsIn(r, ms, id, {false}) && NeverCancels(ms, id) && Run(r, ms).events == {} ==>
                  ExecutionCount(r, ms, id) == if max < 1 then 1 else max)
  {
    var cs := before + [Spawn(delay, Retry(max, 0, base))] + after;
    RunNextTask(DoAll(s, cs), ms);
    DriveInv(s, cs);
    SpawnedIsDue(s, before, delay, Retry(max, 0, base), after, id);
    RetryTiming(DoAll(s, cs), ms, id, s.clock + delay, base, max);
  }

  // ----- periodic tasks -----

  function PeriodicTime(first: nat, interval: nat, k: nat): nat {
    if k == 0 then first else PeriodicTime(first, interval, k - 1) + interval
  }

  lemma {:induction false} PeriodicTimeClosedForm(first: nat, interval: nat, k: nat)
    ensures PeriodicTime(first, interval, k) == first + k * interval
  {
    if k > 0 {
      PeriodicTimeClosedForm(first, interval, k - 1);
      assert k * interval == (k - 1) * interval + interval;
    }
  }

  lemma {:induction false} PeriodicTimeGrows(first: nat, interval: nat, i: nat, j: nat)
    requires i <= j
    ensures PeriodicTime(first, interval, i) <= PeriodicTime(first, interval, j)
  {
    if i < j {
      PeriodicTimeGrows(first, interval, i, j - 1);
    }
  }

  /** How many executions a count stands for: a count of zero wraps around before it is looked at. */
  function Rounds(n: nat): (r: nat)
    ensures r >= 1 && (n >= 1 ==> r == n)
  {
    if n == 0 then U32 else n
  }

  function PeriodicPlan(first: nat, interval: Time, n: nat): Plan {
    Plan((k: nat) => Periodic(interval, Some(if k == 0 then n else if k < Rounds(n) then Rounds(n) - k else 0)),
         (k: nat) => PeriodicTime(first, interval, k),
         Rounds(n))
  }

  lemma {:induction false} PeriodicPlanCoherent(first: Time, interval: Time, n: nat)
    requires n < U32 && PeriodicTime(first, interval, Rounds(n) - 1) <= MAX_NANOS
    ensures Coherent(PeriodicPlan(first, interval, n))
    ensures Unstoppable(PeriodicPlan(first, interval, n), {true, false})
  {
    var p, rounds := PeriodicPlan(first, interval, n), Rounds(n);
    forall k: nat, ok: bool | k < rounds
      ensures match Again(p.shape(k), ok)
        case None => k + 1 == rounds
        case Some((delay, next)) =>
          k + 1 < rounds && next == p.shape(k + 1) && p.due(k) <= MAX_NANOS && Plus(p.due(k), delay) == p.due(k + 1)
    {
      if k + 1 < rounds {
        PeriodicTimeGrows(first, interval, k, k + 1);
        PeriodicTimeGrows(first, interval, k + 1, rounds - 1);
      }
    }
  }

  lemma {:induction false} EndsSomehow<P>(s: State<P>, ms: seq<Move<P>>, id: Uuid)
    ensures EndsIn(s, ms, id, {true, false})
    decreases |ms|
  {
    if ms != [] {
      EndsSomehow(Make(s, ms[0]), ms[1..], id);
    }
  }

  lemma {:induction false} PeriodicStart<P>(s: State<P>, id: Uuid, first: Time, interval: Time, n: nat)
    requires Idle(s) && DueAs(s, id, Periodic(interval, Some(n)), first)
    ensures OnPlan(s, id, PeriodicPlan(first, interval, n), 0)
  {}

  /**
   * A periodic task with count n makes its execution number i (from 0) at
   * PeriodicTime(first, interval, i), which is first + i * interval (PeriodicTimeClosedForm), at most
   * Rounds(n) times, that is n times unless n is zero; run to exhaustion without being cancelled,
   * exactly so often.
   */
  lemma {:induction false} PeriodicTiming<P>(
      s: State<P>, ms: seq<Move<P>>, id: Uuid, first: Time, interval: Time, n: nat)
    requires Idle(s) && Run(s, ms).nextTask < W
    requires n < U32 && DueAs(s, id, Periodic(interval, Some(n)), first)
    requires PeriodicTime(first, interval, Rounds(n) - 1) <= MAX_NANOS
    ensures RunFollows(s, ms, id, PeriodicPlan(first, interval, n), 0)
    ensures ExecutionCount(s, ms, id) <= Rounds(n)
    ensures NeverCancels(ms, id) && Run(s, ms).events == {} ==> ExecutionCount(s, ms, id) == Rounds(n)
  {
    PeriodicPlanCoherent(first, interval, n);
    PeriodicStart(s, id, first, interval, n);
    EndsSomehow(s, ms, id);
    PlanFollowed(s, ms, id, PeriodicPlan(first, interval, n), {true, false});
  }
}
