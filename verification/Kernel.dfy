/**
 * The simulation kernel as a state machine: the event queue, the task tables, one step of the
 * simulation, and the commands that event processing may issue against the scheduler.
 */
module Kernel {
  import opened SimTime
  import opened Options
  import opened Ids
  import opened Vectors

  datatype Entry<P> =
    | ComponentEvent(eventId: nat, time: Time, component: Uuid, payload: P)
    | TaskEvent(eventId: nat, time: Time, taskId: Uuid)

  /** What a task keeps between executions. The user's closure is not data: its effects are the step's `Work`. */
  datatype Task =
    | Once
    | Retry(maxAttempts: nat, currentAttempt: nat, baseDelay: Time)
    | Periodic(interval: Time, remaining: Option<nat>)

  /** `Unit` results are never stored. */
  datatype Output = Unit | Value(value: int) | Attempted(ok: bool, value: int)

  datatype Deferred<P> = Deferred(delay: Time, component: Uuid, payload: P)

  /** What code running inside an event may ask of the scheduler. */
  datatype Command<P> =
    | Schedule(delay: Time, component: Uuid, payload: P)
    | Spawn(delay: Time, task: Task)
    | Cancel(id: Uuid)
    | Take(id: Uuid)
    | Defer(wake: Deferred<P>)

  /** Everything the processed component or closure did, in order, and how it ended. */
  datatype Work<P> = Work(commands: seq<Command<P>>, ok: bool, output: Output)

  datatype State<P(==)> = State(
    nextEvent: nat,
    nextTask: nat,
    mint: nat -> Uuid,
    events: set<Entry<P>>,
    clock: Time,
    pending: map<Uuid, Task>,
    completed: map<Uuid, Output>,
    cancelled: set<Uuid>,
    executing: Option<Uuid>,
    deferred: seq<Deferred<P>>)

  function Initial<P(==)>(mint: nat -> Uuid): State<P> {
    State(0, 0, mint, {}, 0, map[], map[], {}, None, [])
  }

  // ----- queue order -----

  /** The heap order: earlier time first, then smaller event id. */
  predicate Before<P>(e: Entry<P>, f: Entry<P>) {
    e.time < f.time || (e.time == f.time && e.eventId < f.eventId)
  }

  predicate IsTop<P(==)>(e: Entry<P>, es: set<Entry<P>>) {
    e in es && forall f <- es :: !Before(f, e)
  }

  lemma {:induction false} TopExists<P>(es: set<Entry<P>>)
    requires es != {}
    ensures exists e :: IsTop(e, es)
    decreases |es|
  {
    var x :| x in es;
    if es == {x} {
      assert IsTop(x, es);
    } else {
      TopExists(es - {x});
      var y :| IsTop(y, es - {x});
      var top := if Before(x, y) then x else y;
      forall f <- es ensures !Before(f, top) {
        assert f == x || f in es - {x};
      }
      assert IsTop(top, es);
    }
  }

  ghost function Top<P>(es: set<Entry<P>>): (e: Entry<P>)
    requires es != {}
    ensures IsTop(e, es)
  {
    TopExists(es);
    var e :| IsTop(e, es);
    e
  }

  /** The order in which a heap gives up its entries. */
  ghost function Sorted<P>(es: set<Entry<P>>): (r: seq<Entry<P>>)
    ensures |r| == |es|
    ensures (forall e <- es :: e in r) && (forall e <- r :: e in es)
    decreases |es|
  {
    if es == {} then [] else
      var e := Top(es);
      [e] + Sorted(es - {e})
  }

  /** Strictly increasing in heap order. */
  ghost predicate Increasing<P>(es: seq<Entry<P>>) {
    es != [] ==> (forall e <- es[1..] :: Before(es[0], e)) && Increasing(es[1..])
  }

  lemma {:induction false} IncreasingAt<P>(l: seq<Entry<P>>, i: nat, j: nat)
    requires Increasing(l) && i < j < |l|
    ensures Before(l[i], l[j])
  {
    if i > 0 {
      IncreasingAt(l[1..], i - 1, j - 1);
    } else {
      assert l[j] == l[1..][j - 1];
    }
  }

  predicate IsCancelled<P(==)>(s: State<P>, e: Entry<P>) {
    e.TaskEvent? && e.taskId in s.cancelled
  }

  ghost function Live<P>(s: State<P>): set<Entry<P>> {
    set e | e in s.events && !IsCancelled(s, e)
  }

  /** The live entries of least time: those a policy may choose from. */
  ghost function Frontier<P>(s: State<P>): (f: set<Entry<P>>)
    requires Live(s) != {}
    ensures f != {}
  {
    var t := Top(Live(s)).time;
    var f := set e | e in Live(s) && e.time == t;
    assert Top(Live(s)) in f;
    f
  }

  /** The entry a policy answering `pick` gets: answers past the end mean the last one. */
  ghost function Chosen<P>(s: State<P>, pick: nat): (e: Entry<P>)
    requires Live(s) != {}
    ensures e in Frontier(s)
  {
    var f := Sorted(Frontier(s));
    assert |f| > 0;
    f[Clamp(pick, |f|)]
  }

  /** Drops the given cancelled entries together with their cancellation marks. */
  ghost function Forget<P>(s: State<P>, dropped: set<Entry<P>>): State<P> {
    s.(events := s.events - dropped,
       cancelled := s.cancelled - (set d | d in dropped && d.TaskEvent? :: d.taskId))
  }

  /** Forgets every cancelled entry whose time has come. */
  ghost function Sweep<P>(s: State<P>, upTo: Time): State<P> {
    Forget(s, set e | e in s.events && IsCancelled(s, e) && e.time <= upTo)
  }

  /** Takes out the chosen entry, and the cancelled ones met on the way. */
  ghost function Popped<P>(s: State<P>, e: Entry<P>): State<P> {
    var r := Sweep(s, e.time);
    r.(events := r.events - {e}, clock := e.time)
  }

  /** A pop without a policy takes the top live entry and drops only the cancelled ones ahead of it. */
  ghost function PlainPopped<P>(s: State<P>, e: Entry<P>): State<P> {
    var r := Forget(s, set f | f in s.events && IsCancelled(s, f) && Before(f, e));
    r.(events := r.events - {e}, clock := e.time)
  }

  // ----- commands -----

  function PushComponent<P(==)>(s: State<P>, delay: Time, component: Uuid, payload: P): State<P> {
    s.(nextEvent := s.nextEvent + 1,
       events := s.events + {ComponentEvent(s.nextEvent + 1, Plus(s.clock, delay), component, payload)})
  }

  function PushTask<P(==)>(s: State<P>, time: Time, id: Uuid, task: Task): State<P> {
    s.(pending := s.pending[id := task],
       nextEvent := s.nextEvent + 1,
       events := s.events + {TaskEvent(s.nextEvent + 1, time, id)})
  }

  function SpawnTask<P(==)>(s: State<P>, delay: Time, task: Task): State<P> {
    PushTask(s.(nextTask := s.nextTask + 1), Plus(s.clock, delay), s.mint(s.nextTask + 1), task)
  }

  function CancelTask<P(==)>(s: State<P>, id: Uuid): State<P> {
    if id in s.pending then s.(pending := s.pending - {id}, cancelled := s.cancelled + {id}) else s
  }

  function Do<P(==)>(s: State<P>, c: Command<P>): State<P> {
    match c
    case Schedule(delay, component, payload) => PushComponent(s, delay, component, payload)
    case Spawn(delay, task) => SpawnTask(s, delay, task)
    case Cancel(id) => CancelTask(s, id)
    case Take(id) => s.(completed := s.completed - {id})
    case Defer(wake) => s.(deferred := s.deferred + [wake])
  }

  function DoAll<P(==)>(s: State<P>, cs: seq<Command<P>>): (r: State<P>)
    ensures r.executing == s.executing && r.clock == s.clock && r.mint == s.mint
    ensures r.nextTask >= s.nextTask
    decreases |cs|
  {
    if cs == [] then s else DoAll(Do(s, cs[0]), cs[1..])
  }

  // ----- tasks -----

  const U32: nat := 0x1_0000_0000

  /** `-= 1` on a 32-bit counter. */
  function Decrement(n: nat): nat { if n == 0 then U32 - 1 else n - 1 }

  /** `2_u64.pow(k)`, which wraps. */
  function WrappingPow2(k: nat): nat { Pow2(k) % W }

  /** A running task schedules its next execution under its own id. */
  function Reschedule<P(==)>(s: State<P>, delay: Time, task: Task): State<P>
    requires s.executing.Some?
  {
    PushTask(s, Plus(s.clock, delay), s.executing.value, task)
  }

  /** Whether, after how long, and as what a task goes on after an execution. */
  function Again(task: Task, ok: bool): Option<(Time, Task)> {
    match task
    case Once => None
    case Retry(max, current, base) =>
      if ok || current + 1 >= max then None
      else Some((Scale(base, WrappingPow2(current)), Retry(max, current + 1, base)))
    case Periodic(interval, remaining) =>
      if remaining.None? then Some((interval, task))
      else if Decrement(remaining.value) == 0 then None
      else Some((interval, Periodic(interval, Some(Decrement(remaining.value)))))
  }

  function ResultOf<P>(task: Task, w: Work<P>): Output {
    match task
    case Once => w.output
    case Retry(_, _, _) => Attempted(w.ok, if w.output.Value? then w.output.value else 0)
    case Periodic(_, _) => Unit
  }

  /** One execution of a task that has been taken out of the pending table. */
  function RunTask<P(==)>(s: State<P>, task: Task, w: Work<P>): State<P>
    requires s.executing.Some?
  {
    var r := DoAll(s, w.commands);
    match Again(task, w.ok)
    case None => r
    case Some((delay, next)) => Reschedule(r, delay, next)
  }

  /** A task that runs has left the pending table. */
  function Started<P(==)>(s: State<P>, id: Uuid): State<P> {
    s.(pending := s.pending - {id}, executing := Some(id))
  }

  /** Ends an execution: a task that did not re-schedule itself stores its result. */
  function Finish<P(==)>(s: State<P>, id: Uuid, previous: Option<Uuid>, result: Output): State<P> {
    var r := s.(executing := previous);
    if id in r.pending || result.Unit? then r else r.(completed := r.completed[id := result])
  }

  function Execute<P(==)>(s: State<P>, id: Uuid, w: Work<P>): State<P> {
    if id in s.cancelled then s.(cancelled := s.cancelled - {id})
    else if id !in s.pending then s
    else
      var task := s.pending[id];
      Finish(RunTask(Started(s, id), task, w), id, s.executing, ResultOf(task, w))
  }

  // ----- one step -----

  function Process<P(==)>(s: State<P>, e: Entry<P>, w: Work<P>): State<P> {
    match e
    case ComponentEvent(_, _, _, _) => DoAll(s, w.commands)
    case TaskEvent(_, _, id) => Execute(s, id, w)
  }

  function DrainAll<P(==)>(s: State<P>, ds: seq<Deferred<P>>): State<P>
    decreases |ds|
  {
    if ds == [] then s
    else DrainAll(PushComponent(s, ds[0].delay, ds[0].component, ds[0].payload), ds[1..])
  }

  /** Schedules the wakes deferred while the event was processed. */
  function Drain<P(==)>(s: State<P>): State<P> {
    DrainAll(s, s.deferred).(deferred := [])
  }

  /** How one step went: the policy's answer and what the processed code did. */
  datatype Label<P> = Label(pick: nat, work: Work<P>)

  ghost function Step<P>(s: State<P>, l: Label<P>): State<P> {
    if Live(s) == {} then Sweep(s, MAX_NANOS)
    else
      var e := Chosen(s, l.pick);
      Drain(Process(Popped(s, e), e, l.work))
  }

  /** A run alternates steps with what its driver does between them: schedule, spawn, cancel, take, defer. */
  datatype Move<P> = Turn(l: Label<P>) | Drive(commands: seq<Command<P>>)

  ghost function Make<P>(s: State<P>, m: Move<P>): State<P> {
    match m
    case Turn(l) => Step(s, l)
    case Drive(cs) => DoAll(s, cs)
  }

  ghost function Run<P>(s: State<P>, ms: seq<Move<P>>): State<P>
    decreases |ms|
  {
    if ms == [] then s else Run(Make(s, ms[0]), ms[1..])
  }
}
