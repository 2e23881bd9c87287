/** What every step of the kernel keeps, for every policy answer and everything processed code may do. */
module KernelInvariants {
  import opened SimTime
  import opened Options
  import opened Ids
  import opened Kernel

  /** No queued entry lies in the past, and event ids are never shared. */
  ghost predicate QueueOk<P>(s: State<P>) {
    && (forall e <- s.events :: s.clock <= e.time && 1 <= e.eventId <= s.nextEvent)
    && (forall e <- s.events, f <- s.events :: e.eventId == f.eventId ==> e == f)
  }

  ghost function QueuedIds<P>(s: State<P>): set<Uuid> {
    set e | e in s.events && e.TaskEvent? :: e.taskId
  }

  ghost predicate DistinctTasks<P>(s: State<P>) {
    forall e <- s.events, f <- s.events :: e.TaskEvent? && f.TaskEvent? && e.taskId == f.taskId ==> e == f
  }

  /**
   * Each queued task entry has its own id; the queued ids are exactly the pending and the
   * cancelled ones, which do not overlap; finished tasks are neither.
   */
  ghost predicate Bookkeeping<P>(s: State<P>) {
    && DistinctTasks(s)
    && QueuedIds(s) == s.pending.Keys + s.cancelled
    && s.pending.Keys !! s.cancelled
    && s.completed.Keys !! s.pending.Keys + s.cancelled
  }

  ghost predicate Issued<P>(s: State<P>, id: Uuid) {
    exists k: nat :: 1 <= k <= s.nextTask && s.mint(k) == id
  }

  ghost predicate AllIssued<P>(s: State<P>) {
    && (forall id <- s.pending :: Issued(s, id))
    && (forall id <- s.cancelled :: Issued(s, id))
    && (forall id <- s.completed :: Issued(s, id))
  }

  /** A running task is in no table until it finishes or re-schedules itself. */
  ghost predicate RunningOk<P>(s: State<P>) {
    s.executing.Some? ==>
      var id := s.executing.value;
      Issued(s, id) && id !in s.pending && id !in s.cancelled && id !in s.completed
  }

  ghost predicate Inv<P>(s: State<P>) {
    && QueueOk(s)
    && Bookkeeping(s)
    && AllIssued(s)
    && InjectiveBelow(s.mint, W)
    && s.nextTask < W
  }

  /** The invariant between steps. */
  ghost predicate Idle<P>(s: State<P>) {
    Inv(s) && s.executing.None?
  }

  lemma {:induction false} InitialIdle<P>(mint: nat -> Uuid)
    requires InjectiveBelow(mint, W)
    ensures Idle(Initial<P>(mint))
  {}

  lemma {:induction false} PushComponentInv<P>(s: State<P>, delay: Time, c: Uuid, p: P)
    requires Inv(s)
    ensures var r := PushComponent(s, delay, c, p); Inv(r) && (RunningOk(s) ==> RunningOk(r))
  {
    var r := PushComponent(s, delay, c, p);
    assert QueuedIds(r) == QueuedIds(s);
    SameIssued(s, r);
  }

  lemma {:induction false} SameIssued<P>(s: State<P>, r: State<P>)
    requires r.mint == s.mint && r.nextTask >= s.nextTask
    ensures forall id :: Issued(s, id) ==> Issued(r, id)
  {
    forall id | Issued(s, id)
      ensures Issued(r, id)
    {
      var k: nat :| 1 <= k <= s.nextTask && s.mint(k) == id;
      assert 1 <= k <= r.nextTask && r.mint(k) == id;
    }
  }

  lemma {:induction false} PushTaskBooks<P>(s: State<P>, time: Time, id: Uuid, t: Task)
    requires QueueOk(s) && Bookkeeping(s) && s.clock <= time
    requires id !in s.pending && id !in s.cancelled && id !in s.completed
    ensures var r := PushTask(s, time, id, t); QueueOk(r) && Bookkeeping(r)
  {
    var r := PushTask(s, time, id, t);
    QueuedIdsGrow(s, r, TaskEvent(s.nextEvent + 1, time, id));
    DistinctTasksGrow(s, r, TaskEvent(s.nextEvent + 1, time, id));
  }

  lemma {:induction false} DistinctTasksGrow<P>(s: State<P>, r: State<P>, n: Entry<P>)
    requires DistinctTasks(s) && n.TaskEvent? && r.events == s.events + {n} && n.taskId !in QueuedIds(s)
    ensures DistinctTasks(r)
  {
    forall e <- s.events | e.TaskEvent? ensures e.taskId != n.taskId {
      assert e.taskId in QueuedIds(s);
    }
  }

  lemma {:induction false} QueuedIdsGrow<P>(s: State<P>, r: State<P>, e: Entry<P>)
    requires e.TaskEvent? && r.events == s.events + {e}
    ensures QueuedIds(r) == QueuedIds(s) + {e.taskId}
  {
    assert e in r.events;
  }

  /** Scheduling a task under an id that is in no table keeps the books. */
  lemma {:induction false} PushTaskInv<P>(s: State<P>, time: Time, id: Uuid, t: Task)
    requires Inv(s) && s.clock <= time && Issued(s, id)
    requires id !in s.pending && id !in s.cancelled && id !in s.completed
    ensures Inv(PushTask(s, time, id, t))
  {
    PushTaskBooks(s, time, id, t);
    SameIssued(s, PushTask(s, time, id, t));
  }

  /** The id source makes a spawned task's id new. */
  lemma {:induction false} SpawnIdIsNew<P>(s: State<P>)
    requires InjectiveBelow(s.mint, W) && s.nextTask + 1 < W
    ensures !Issued(s, s.mint(s.nextTask + 1))
  {
  }

  /** Reserving the next id: it is issued, and in no table. */
  lemma {:induction false} ReserveId<P>(s: State<P>)
    requires Inv(s) && s.nextTask + 1 < W
    ensures var r := s.(nextTask := s.nextTask + 1); var id := s.mint(r.nextTask);
      Inv(r) && Issued(r, id) && id !in r.pending && id !in r.cancelled && id !in r.completed
  {
    SpawnIdIsNew(s);
    var r := s.(nextTask := s.nextTask + 1);
    SameIssued(s, r);
    assert QueuedIds(r) == QueuedIds(s);
    assert 1 <= r.nextTask && r.mint(r.nextTask) == s.mint(r.nextTask);
  }

  lemma {:induction false} SpawnInv<P>(s: State<P>, delay: Time, t: Task)
    requires Inv(s) && s.nextTask + 1 < W
    ensures var r := SpawnTask(s, delay, t); Inv(r) && (RunningOk(s) ==> RunningOk(r))
  {
    SpawnIdIsNew(s);
    ReserveId(s);
    var s1 := s.(nextTask := s.nextTask + 1);
    PushTaskInv(s1, Plus(s.clock, delay), s.mint(s1.nextTask), t);
    SameIssued(s, SpawnTask(s, delay, t));
  }

  lemma {:induction false} CancelBooks<P>(s: State<P>, id: Uuid)
    requires Bookkeeping(s)
    ensures Bookkeeping(CancelTask(s, id))
  {
    assert QueuedIds(CancelTask(s, id)) == QueuedIds(s);
  }

  lemma {:induction false} CancelInv<P>(s: State<P>, id: Uuid)
    requires Inv(s)
    ensures var r := CancelTask(s, id); Inv(r) && (RunningOk(s) ==> RunningOk(r))
  {
    CancelBooks(s, id);
    SameIssued(s, CancelTask(s, id));
  }

  lemma {:induction false} DoInv<P>(s: State<P>, c: Command<P>)
    requires Inv(s) && Do(s, c).nextTask < W
    ensures var r := Do(s, c); Inv(r) && (RunningOk(s) ==> RunningOk(r))
  {
    var r := Do(s, c);
    match c
    case Schedule(delay, component, payload) => PushComponentInv(s, delay, component, payload);
    case Spawn(delay, task) => SpawnInv(s, delay, task);
    case Cancel(id) => CancelInv(s, id);
    case Take(id) =>
      assert QueuedIds(r) == QueuedIds(s);
      SameIssued(s, r);
    case Defer(wake) =>
      assert QueuedIds(r) == QueuedIds(s);
      SameIssued(s, r);
  }

  lemma {:induction false} DoAllInv<P>(s: State<P>, cs: seq<Command<P>>)
    requires Inv(s) && DoAll(s, cs).nextTask < W
    ensures var r := DoAll(s, cs); Inv(r) && (RunningOk(s) ==> RunningOk(r))
    decreases |cs|
  {
    if cs != [] {
      DoInv(s, cs[0]);
      DoAllInv(Do(s, cs[0]), cs[1..]);
    }
  }

  /** Dropping cancelled entries closes their books, and no others. */
  lemma {:induction false} ForgetInv<P>(s: State<P>, dropped: set<Entry<P>>)
    requires Inv(s) && dropped <= s.events && forall d <- dropped :: IsCancelled(s, d)
    ensures var r := Forget(s, dropped); Inv(r) && Live(r) == Live(s)
  {
    var r := Forget(s, dropped);
    forall id ensures id in QueuedIds(r) <==> id in r.pending.Keys + r.cancelled {
      if id in QueuedIds(r) {
        var e :| e in r.events && e.TaskEvent? && e.taskId == id;
        assert id in QueuedIds(s);
      }
      if id in r.pending.Keys + r.cancelled {
        assert id in QueuedIds(s);
        var e :| e in s.events && e.TaskEvent? && e.taskId == id;
        assert e in r.events;
      }
    }
    SameIssued(s, r);
    forall e <- Live(s) ensures e in Live(r) {}
    forall e <- Live(r) ensures e in Live(s) {}
  }

  lemma {:induction false} SweepInv<P>(s: State<P>, upTo: Time)
    requires Inv(s)
    ensures var r := Sweep(s, upTo); Inv(r) && Live(r) == Live(s)
  {
    ForgetInv(s, set e | e in s.events && IsCancelled(s, e) && e.time <= upTo);
  }

  lemma {:induction false} TakeOutTaskBooks<P>(s: State<P>, e: Entry<P>)
    requires Bookkeeping(s) && e in Live(s) && e.TaskEvent?
    ensures e.taskId in s.pending && e.taskId !in s.cancelled && e.taskId !in s.completed
    ensures Bookkeeping(Started(s.(events := s.events - {e}, clock := e.time), e.taskId))
  {
    assert e.taskId in QueuedIds(s);
    var t := Started(s.(events := s.events - {e}, clock := e.time), e.taskId);
    forall id ensures id in QueuedIds(t) <==> id in QueuedIds(s) && id != e.taskId {
      if id in QueuedIds(s) {
        var f :| f in s.events && f.TaskEvent? && f.taskId == id;
        assert f == e || f in t.events;
      }
    }
    assert QueuedIds(t) == t.pending.Keys + t.cancelled;
  }

  lemma {:induction false} TakeOut<P>(s: State<P>, e: Entry<P>)
    requires Inv(s) && e in Live(s) && forall f <- s.events :: e.time <= f.time
    ensures var r := s.(events := s.events - {e}, clock := e.time);
            && (e.ComponentEvent? ==> Inv(r))
            && (e.TaskEvent? ==> e.taskId in r.pending && e.taskId !in r.cancelled
                                 && Inv(Started(r, e.taskId)) && RunningOk(Started(r, e.taskId)))
  {
    var r := s.(events := s.events - {e}, clock := e.time);
    SameIssued(s, r);
    if e.ComponentEvent? {
      assert QueuedIds(r) == QueuedIds(s);
    } else {
      TakeOutTaskBooks(s, e);
      SameIssued(s, Started(r, e.taskId));
    }
  }

  lemma {:induction false} ChosenIsLeast<P>(s: State<P>, pick: nat)
    requires Live(s) != {}
    ensures Chosen(s, pick) in Live(s) && forall f <- Live(s) :: Chosen(s, pick).time <= f.time
  {
    forall f <- Live(s) ensures Chosen(s, pick).time <= f.time {
      assert !Before(f, Top(Live(s)));
    }
  }

  lemma {:induction false} LiveWithout<P>(s: State<P>, r: State<P>, e: Entry<P>)
    requires r.events == s.events - {e} && r.cancelled == s.cancelled
    ensures Live(r) == Live(s) - {e}
  {}

  lemma {:induction false} SweptQueue<P>(s: State<P>, e: Entry<P>)
    requires Inv(s) && e in Live(s) && forall f <- Live(s) :: e.time <= f.time
    ensures var w := Sweep(s, e.time);
            Inv(w) && Live(w) == Live(s) && e in Live(w) && forall f <- w.events :: e.time <= f.time
  {
    SweepInv(s, e.time);
    forall f <- Sweep(s, e.time).events ensures e.time <= f.time {
      if !IsCancelled(s, f) {
        assert f in Live(s);
      }
    }
  }

  lemma {:induction false} PoppedLoses<P>(s: State<P>, e: Entry<P>)
    requires Inv(s) && e in Live(s)
    ensures var r := Popped(s, e);
            && r.events <= s.events
            && (forall f <- s.events - r.events :: f == e || (IsCancelled(s, f) && f.time <= e.time))
            && s.clock <= r.clock == e.time
  {}

  /** Taking out a live entry of least time, with the cancelled entries due by then. */
  lemma {:induction false} PoppedKeeps<P>(s: State<P>, e: Entry<P>)
    requires Inv(s) && e in Live(s) && forall f <- Live(s) :: e.time <= f.time
    ensures var r := Popped(s, e);
            && Live(r) == Live(s) - {e}
            && r.events <= s.events
            && (forall f <- s.events - r.events :: f == e || (IsCancelled(s, f) && f.time <= e.time))
            && s.clock <= r.clock == e.time
            && (e.ComponentEvent? ==> Inv(r))
            && (e.TaskEvent? ==> e.taskId in r.pending && e.taskId !in r.cancelled
                                 && Inv(Started(r, e.taskId)) && RunningOk(Started(r, e.taskId)))
  {
    SweptQueue(s, e);
    PoppedLoses(s, e);
    TakeOut(Sweep(s, e.time), e);
    LiveWithout(Sweep(s, e.time), Popped(s, e), e);
  }

  /** The popped entry was live, of least time; no other live entry is lost; only due cancelled entries go with it. */
  lemma {:induction false} PopCorrect<P>(s: State<P>, pick: nat)
    requires Inv(s) && Live(s) != {}
    ensures var e := Chosen(s, pick); var r := Popped(s, e);
            && e in Live(s) && (forall f <- Live(s) :: e.time <= f.time)
            && Live(r) == Live(s) - {e}
            && r.events <= s.events
               && (forall f <- s.events - r.events :: f == e || (IsCancelled(s, f) && f.time <= e.time))
            && s.clock <= r.clock == e.time
            && (e.ComponentEvent? ==> Inv(r))
            && (e.TaskEvent? ==> e.taskId in r.pending && e.taskId !in r.cancelled
                                 && Inv(Started(r, e.taskId)) && RunningOk(Started(r, e.taskId)))
  {
    ChosenIsLeast(s, pick);
    PoppedKeeps(s, Chosen(s, pick));
  }

  /** What holds of a running task's id when its execution ends. */
  ghost predicate Ended<P>(s: State<P>, r: State<P>)
    requires s.executing.Some?
  {
    var id := s.executing.value;
    && Inv(r) && r.executing == s.executing && r.clock == s.clock
    && Issued(r, id) && id !in r.cancelled && id !in r.completed
  }

  lemma {:induction false} RescheduleInv<P>(s: State<P>, delay: Time, t: Task)
    requires Inv(s) && s.executing.Some? && RunningOk(s)
    ensures Ended(s, Reschedule(s, delay, t))
  {
    PushTaskInv(s, Plus(s.clock, delay), s.executing.value, t);
    SameIssued(s, Reschedule(s, delay, t));
  }

  lemma {:induction false} RunTaskInv<P>(s: State<P>, t: Task, w: Work<P>)
    requires Inv(s) && s.executing.Some? && RunningOk(s) && RunTask(s, t, w).nextTask < W
    ensures Ended(s, RunTask(s, t, w))
  {
    DoAllInv(s, w.commands);
    var again := Again(t, w.ok);
    if again.Some? {
      RescheduleInv(DoAll(s, w.commands), again.value.0, again.value.1);
    }
  }

  lemma {:induction false} ExecuteInv<P>(s: State<P>, id: Uuid, w: Work<P>)
    requires id in s.pending && id !in s.cancelled && s.executing.None?
    requires Inv(Started(s, id)) && RunningOk(Started(s, id)) && Execute(s, id, w).nextTask < W
    ensures var r := Execute(s, id, w); Inv(r) && r.executing.None? && r.clock == s.clock
  {
    var t := Started(s, id);
    RunTaskInv(t, s.pending[id], w);
    var r := RunTask(t, s.pending[id], w).(executing := None);
    assert QueuedIds(r) == QueuedIds(RunTask(t, s.pending[id], w));
    SameIssued(RunTask(t, s.pending[id], w), r);
    var q := Execute(s, id, w);
    assert QueuedIds(q) == QueuedIds(r);
    SameIssued(r, q);
  }

  lemma {:induction false} DrainAllInv<P>(s: State<P>, ds: seq<Deferred<P>>)
    requires Inv(s)
    ensures var r := DrainAll(s, ds);
            Inv(r) && r.executing == s.executing && r.nextTask == s.nextTask && r.clock == s.clock
    decreases |ds|
  {
    if ds != [] {
      PushComponentInv(s, ds[0].delay, ds[0].component, ds[0].payload);
      DrainAllInv(PushComponent(s, ds[0].delay, ds[0].component, ds[0].payload), ds[1..]);
    }
  }

  /** The entry of a wake: due its delay after the clock, or at the end of time if that comes first. */
  function WakeEntry<P>(wake: Deferred<P>, id: nat, clock: Time): Entry<P> {
    var due := clock + wake.delay;
    ComponentEvent(id, if due <= MAX_NANOS then due else MAX_NANOS, wake.component, wake.payload)
  }

  /** The entries of a list of wakes, under consecutive event ids. */
  ghost function WakeEntries<P>(wakes: seq<Deferred<P>>, last: nat, clock: Time): set<Entry<P>> {
    set i: nat | i < |wakes| :: WakeEntry(wakes[i], last + 1 + i, clock)
  }

  lemma {:induction false} WakeEntriesFirst<P>(wakes: seq<Deferred<P>>, last: nat, clock: Time)
    requires wakes != []
    ensures WakeEntries(wakes, last, clock)
         == {WakeEntry(wakes[0], last + 1, clock)} + WakeEntries(wakes[1..], last + 1, clock)
  {
    forall e <- WakeEntries(wakes, last, clock)
      ensures e == WakeEntry(wakes[0], last + 1, clock) || e in WakeEntries(wakes[1..], last + 1, clock)
    {
      var i: nat :| i < |wakes| && e == WakeEntry(wakes[i], last + 1 + i, clock);
      if i > 0 {
        assert e == WakeEntry(wakes[1..][i - 1], last + 1 + 1 + (i - 1), clock);
      }
    }
    forall e <- WakeEntries(wakes[1..], last + 1, clock) ensures e in WakeEntries(wakes, last, clock) {
      var i: nat :| i < |wakes[1..]| && e == WakeEntry(wakes[1..][i], last + 1 + 1 + i, clock);
      assert e == WakeEntry(wakes[i + 1], last + 1 + (i + 1), clock);
    }
    assert WakeEntry(wakes[0], last + 1 + 0, clock) in WakeEntries(wakes, last, clock);
  }

  /** Draining schedules every wake once, in order, and nothing else. */
  lemma {:induction false} DrainSchedules<P>(s: State<P>, wakes: seq<Deferred<P>>)
    ensures DrainAll(s, wakes).events == s.events + WakeEntries(wakes, s.nextEvent, s.clock)
    ensures DrainAll(s, wakes).nextEvent == s.nextEvent + |wakes|
    decreases |wakes|
  {
    if wakes != [] {
      WakeEntriesFirst(wakes, s.nextEvent, s.clock);
      DrainSchedules(PushComponent(s, wakes[0].delay, wakes[0].component, wakes[0].payload), wakes[1..]);
    }
  }

  lemma {:induction false} DrainInv<P>(s: State<P>)
    requires Inv(s)
    ensures var r := Drain(s);
            Inv(r) && r.executing == s.executing && r.deferred == [] && r.nextTask == s.nextTask && r.clock == s.clock
  {
    DrainAllInv(s, s.deferred);
    var d := DrainAll(s, s.deferred);
    var r := Drain(s);
    assert QueuedIds(r) == QueuedIds(d);
    SameIssued(d, r);
  }

  lemma {:induction false} DrainAllNextTask<P>(s: State<P>, ds: seq<Deferred<P>>)
    ensures DrainAll(s, ds).nextTask == s.nextTask && DrainAll(s, ds).mint == s.mint
    decreases |ds|
  {
    if ds != [] {
      DrainAllNextTask(PushComponent(s, ds[0].delay, ds[0].component, ds[0].payload), ds[1..]);
    }
  }

  lemma {:induction false} StepNextTask<P>(s: State<P>, l: Label<P>)
    ensures Step(s, l).nextTask >= s.nextTask && Step(s, l).mint == s.mint
  {
    if Live(s) != {} {
      var e := Chosen(s, l.pick);
      var p := Process(Popped(s, e), e, l.work);
      DrainAllNextTask(p, p.deferred);
    }
  }

  /** One step keeps the invariant and never turns the clock back. */
  lemma {:induction false} StepInv<P>(s: State<P>, l: Label<P>)
    requires Idle(s) && Step(s, l).nextTask < W
    ensures var r := Step(s, l); Idle(r) && s.clock <= r.clock
    ensures Live(s) == {} ==> Step(s, l).events == {} && Step(s, l).clock == s.clock
    ensures Live(s) != {} ==> Step(s, l).deferred == []
  {
    if Live(s) == {} {
      SweepInv(s, MAX_NANOS);
      forall e <- s.events ensures IsCancelled(s, e) {
        assert IsCancelled(s, e) || e in Live(s);
      }
    } else {
      var e := Chosen(s, l.pick);
      PopCorrect(s, l.pick);
      var p := Process(Popped(s, e), e, l.work);
      DrainAllNextTask(p, p.deferred);
      match e {
        case ComponentEvent(_, _, _, _) => DoAllInv(Popped(s, e), l.work.commands);
        case TaskEvent(_, _, id) => ExecuteInv(Popped(s, e), id, l.work);
      }
      DrainInv(p);
    }
  }

  lemma {:induction false} MakeNextTask<P>(s: State<P>, m: Move<P>)
    ensures Make(s, m).nextTask >= s.nextTask && Make(s, m).mint == s.mint
  {
    if m.Turn? {
      StepNextTask(s, m.l);
    }
  }

  lemma {:induction false} RunNextTask<P>(s: State<P>, ms: seq<Move<P>>)
    ensures Run(s, ms).nextTask >= s.nextTask
    decreases |ms|
  {
    if ms != [] {
      MakeNextTask(s, ms[0]);
      RunNextTask(Make(s, ms[0]), ms[1..]);
    }
  }

  /** Whatever a driver does between two steps keeps the invariant; time does not move. */
  lemma {:induction false} DriveInv<P>(s: State<P>, cs: seq<Command<P>>)
    requires Idle(s) && DoAll(s, cs).nextTask < W
    ensures Idle(DoAll(s, cs)) && DoAll(s, cs).clock == s.clock
  {
    DoAllInv(s, cs);
  }

  lemma {:induction false} MakeInv<P>(s: State<P>, m: Move<P>)
    requires Idle(s) && Make(s, m).nextTask < W
    ensures Idle(Make(s, m)) && s.clock <= Make(s, m).clock
  {
    match m
    case Turn(l) => StepInv(s, l);
    case Drive(cs) => DriveInv(s, cs);
  }

  /**
   * Over whole runs, whatever the policy answers, whatever components and tasks do, and whatever is
   * scheduled, spawned or cancelled between steps: the books balance, no queued entry is in the
   * past, and the clock only moves forward.
   */
  lemma {:induction false} RunInv<P>(s: State<P>, ms: seq<Move<P>>)
    requires Idle(s) && Run(s, ms).nextTask < W
    ensures Idle(Run(s, ms)) && s.clock <= Run(s, ms).clock
    decreases |ms|
  {
    if ms != [] {
      RunNextTask(Make(s, ms[0]), ms[1..]);
      MakeInv(s, ms[0]);
      RunInv(Make(s, ms[0]), ms[1..]);
    }
  }

  /**
   * When the queue has run dry, in any run from any state between steps, no task is pending or
   * half-cancelled: nothing has leaked.
   */
  lemma {:induction false} EmptyQueueLeaksNothing<P>(s: State<P>, ms: seq<Move<P>>)
    requires Idle(s) && Run(s, ms).nextTask < W && Run(s, ms).events == {}
    ensures var r := Run(s, ms); r.pending == map[] && r.cancelled == {}
  {
    var r := Run(s, ms);
    RunInv(s, ms);
    assert QueuedIds(r) == {};
    assert r.pending.Keys == {};
  }

  /** The same for a scheduler constructed with a seed, set up by its driver, and run. */
  lemma {:induction false} SeededRunLeaksNothing<P>(seed: Word, setup: seq<Command<P>>, ms: seq<Move<P>>)
    requires var r := Run(DoAll(Initial<P>(TaskMint(seed)), setup), ms); r.nextTask < W && r.events == {}
    ensures var r := Run(DoAll(Initial<P>(TaskMint(seed)), setup), ms); r.pending == map[] && r.cancelled == {}
  {
    var start := Initial<P>(TaskMint(seed));
    TaskMintIsInjective(seed);
    InitialIdle<P>(TaskMint(seed));
    RunNextTask(DoAll(start, setup), ms);
    DriveInv(start, setup);
    EmptyQueueLeaksNothing(DoAll(start, setup), ms);
  }
}
