/** Popping without a policy and popping with the FIFO policy process the same run. */
module PopEquivalence {
  import opened SimTime
  import opened Options
  import opened Ids
  import opened Kernel
  import opened KernelInvariants
  import opened KernelRuns

  ghost function PlainStep<P>(s: State<P>, w: Work<P>): State<P> {
    if Live(s) == {} then Sweep(s, MAX_NANOS)
    else
      var e := Top(Live(s));
      Drain(Process(PlainPopped(s, e), e, w))
  }

  /** The same run with plain pops: the policy's answers play no role. */
  ghost function PlainMake<P>(s: State<P>, m: Move<P>): State<P> {
    match m
    case Turn(l) => PlainStep(s, l.work)
    case Drive(cs) => DoAll(s, cs)
  }

  ghost function PlainProcessedBy<P>(s: State<P>, m: Move<P>): seq<Entry<P>> {
    if m.Turn? && Live(s) != {} then [Top(Live(s))] else []
  }

  /** The entries a run of plain pops processes; the clock at each is the entry's time. */
  ghost function PlainProcessed<P>(s: State<P>, ms: seq<Move<P>>): seq<Entry<P>>
    decreases |ms|
  {
    if ms == [] then []
    else PlainProcessedBy(s, ms[0]) + PlainProcessed(PlainMake(s, ms[0]), ms[1..])
  }

  ghost predicate SameTables<P>(s: State<P>, r: State<P>) {
    && s.nextEvent == r.nextEvent && s.nextTask == r.nextTask && s.mint == r.mint && s.clock == r.clock
    && s.pending == r.pending && s.completed == r.completed && s.executing == r.executing && s.deferred == r.deferred
  }

  ghost predicate Alike<P>(s: State<P>, r: State<P>) {
    SameTables(s, r) && Live(s) == Live(r)
  }

  /** Equal up to cancelled entries that have not been forgotten yet. */
  ghost predicate Similar<P>(s: State<P>, r: State<P>) {
    Alike(s, r) && Inv(s) && Inv(r)
  }

  lemma {:induction false} LiveSame<P>(s: State<P>, r: State<P>)
    requires s.events == r.events && s.cancelled == r.cancelled
    ensures Live(s) == Live(r)
  {}

  lemma {:induction false} SimilarPush<P>(s: State<P>, r: State<P>, delay: Time, c: Uuid, p: P)
    requires Similar(s, r)
    ensures Similar(PushComponent(s, delay, c, p), PushComponent(r, delay, c, p))
  {
    PushComponentInv(s, delay, c, p);
    PushComponentInv(r, delay, c, p);
    var e := ComponentEvent(s.nextEvent + 1, Plus(s.clock, delay), c, p);
    assert Live(PushComponent(s, delay, c, p)) == Live(s) + {e};
    assert Live(PushComponent(r, delay, c, p)) == Live(r) + {e};
  }

  lemma {:induction false} LivePushTask<P>(s: State<P>, time: Time, id: Uuid, t: Task)
    requires id !in s.cancelled
    ensures Live(PushTask(s, time, id, t)) == Live(s) + {TaskEvent(s.nextEvent + 1, time, id)}
  {}

  lemma {:induction false} AlikePushTask<P>(s: State<P>, r: State<P>, time: Time, id: Uuid, t: Task)
    requires Alike(s, r) && id !in s.cancelled && id !in r.cancelled
    ensures Alike(PushTask(s, time, id, t), PushTask(r, time, id, t))
  {
    LivePushTask(s, time, id, t);
    LivePushTask(r, time, id, t);
  }

  lemma {:induction false} LiveCancel<P>(s: State<P>, id: Uuid)
    requires id in s.pending
    ensures Live(CancelTask(s, id)) == set e | e in Live(s) && !Runs(e, id)
  {}

  lemma {:induction false} AlikeSpawn<P>(s: State<P>, r: State<P>, delay: Time, t: Task)
    requires Alike(s, r) && s.mint(s.nextTask + 1) !in s.cancelled && s.mint(s.nextTask + 1) !in r.cancelled
    ensures Alike(SpawnTask(s, delay, t), SpawnTask(r, delay, t))
  {
    var s1, r1 := s.(nextTask := s.nextTask + 1), r.(nextTask := r.nextTask + 1);
    LiveSame(s, s1);
    LiveSame(r, r1);
    AlikePushTask(s1, r1, Plus(s.clock, delay), s.mint(s.nextTask + 1), t);
  }

  lemma {:induction false} SimilarSpawn<P>(s: State<P>, r: State<P>, delay: Time, t: Task)
    requires Similar(s, r) && s.nextTask + 1 < W
    ensures Similar(SpawnTask(s, delay, t), SpawnTask(r, delay, t))
  {
    ReserveId(s);
    ReserveId(r);
    SpawnInv(s, delay, t);
    SpawnInv(r, delay, t);
    AlikeSpawn(s, r, delay, t);
  }

  lemma {:induction false} SimilarCancel<P>(s: State<P>, r: State<P>, id: Uuid)
    requires Similar(s, r)
    ensures Similar(CancelTask(s, id), CancelTask(r, id))
  {
    CancelInv(s, id);
    CancelInv(r, id);
    if id in s.pending {
      LiveCancel(s, id);
      LiveCancel(r, id);
    }
  }

  lemma {:induction false} SimilarDo<P>(s: State<P>, r: State<P>, c: Command<P>)
    requires Similar(s, r) && Do(s, c).nextTask < W
    ensures Similar(Do(s, c), Do(r, c))
  {
    match c
    case Schedule(delay, component, payload) => SimilarPush(s, r, delay, component, payload);
    case Spawn(delay, task) => SimilarSpawn(s, r, delay, task);
    case Cancel(id) => SimilarCancel(s, r, id);
    case Take(id) =>
      DoInv(s, c);
      DoInv(r, c);
      LiveSame(s, Do(s, c));
      LiveSame(r, Do(r, c));
    case Defer(wake) =>
      DoInv(s, c);
      DoInv(r, c);
      LiveSame(s, Do(s, c));
      LiveSame(r, Do(r, c));
  }

  lemma {:induction false} SimilarDoAll<P>(s: State<P>, r: State<P>, cs: seq<Command<P>>)
    requires Similar(s, r) && DoAll(r, cs).nextTask < W
    ensures Similar(DoAll(s, cs), DoAll(r, cs))
    decreases |cs|
  {
    if cs != [] {
      SimilarDo(s, r, cs[0]);
      SimilarDoAll(Do(s, cs[0]), Do(r, cs[0]), cs[1..]);
    }
  }

  lemma {:induction false} SimilarRunTask<P>(s: State<P>, r: State<P>, t: Task, w: Work<P>)
    requires Similar(s, r) && s.executing.Some? && RunningOk(s) && RunningOk(r) && RunTask(r, t, w).nextTask < W
    ensures Similar(RunTask(s, t, w), RunTask(r, t, w))
  {
    var s1, r1 := DoAll(s, w.commands), DoAll(r, w.commands);
    SimilarDoAll(s, r, w.commands);
    DoAllInv(s, w.commands);
    DoAllInv(r, w.commands);
    RunTaskInv(s, t, w);
    RunTaskInv(r, t, w);
    var again := Again(t, w.ok);
    if again.Some? {
      AlikePushTask(s1, r1, Plus(s1.clock, again.value.0), s1.executing.value, again.value.1);
    }
  }

  lemma {:induction false} AlikeFinish<P>(s: State<P>, r: State<P>, id: Uuid, previous: Option<Uuid>, result: Output)
    requires Alike(s, r)
    ensures Alike(Finish(s, id, previous, result), Finish(r, id, previous, result))
  {
    LiveSame(s, Finish(s, id, previous, result));
    LiveSame(r, Finish(r, id, previous, result));
  }

  lemma {:induction false} SimilarExecute<P>(s: State<P>, r: State<P>, id: Uuid, w: Work<P>)
    requires id in s.pending && id in r.pending && id !in s.cancelled && id !in r.cancelled && s.executing.None?
             && r.executing.None?
    requires s.pending[id] == r.pending[id] && s.completed == r.completed
    requires Similar(Started(s, id), Started(r, id)) && RunningOk(Started(s, id)) && RunningOk(Started(r, id))
    requires Execute(r, id, w).nextTask < W
    ensures Similar(Execute(s, id, w), Execute(r, id, w))
  {
    SimilarRunTask(Started(s, id), Started(r, id), s.pending[id], w);
    ExecuteInv(s, id, w);
    ExecuteInv(r, id, w);
    AlikeFinish(RunTask(Started(s, id), s.pending[id], w), RunTask(Started(r, id), s.pending[id], w),
                id, None, ResultOf(s.pending[id], w));
  }

  lemma {:induction false} SimilarDrainAll<P>(s: State<P>, r: State<P>, ds: seq<Deferred<P>>)
    requires Similar(s, r)
    ensures Similar(DrainAll(s, ds), DrainAll(r, ds))
    decreases |ds|
  {
    if ds != [] {
      SimilarPush(s, r, ds[0].delay, ds[0].component, ds[0].payload);
      SimilarDrainAll(PushComponent(s, ds[0].delay, ds[0].component, ds[0].payload),
                      PushComponent(r, ds[0].delay, ds[0].component, ds[0].payload), ds[1..]);
    }
  }

  lemma {:induction false} SimilarDrain<P>(s: State<P>, r: State<P>)
    requires Similar(s, r)
    ensures Similar(Drain(s), Drain(r))
  {
    SimilarDrainAll(s, r, s.deferred);
    DrainInv(s);
    DrainInv(r);
    LiveSame(Drain(s), DrainAll(s, s.deferred));
    LiveSame(Drain(r), DrainAll(r, r.deferred));
  }

  lemma {:induction false} TopUnique<P>(s: State<P>, a: Entry<P>, b: Entry<P>)
    requires QueueOk(s) && IsTop(a, Live(s)) && IsTop(b, Live(s))
    ensures a == b
  {}

  lemma {:induction false} PlainPopCorrect<P>(s: State<P>)
    requires Inv(s) && Live(s) != {}
    ensures var e := Top(Live(s)); var r := PlainPopped(s, e);
      && Live(r) == Live(s) - {e}
      && (e.ComponentEvent? ==> Inv(r))
      && (e.TaskEvent? ==> e.taskId in r.pending && e.taskId !in r.cancelled
                           && Inv(Started(r, e.taskId)) && RunningOk(Started(r, e.taskId)))
  {
    var e := Top(Live(s));
    var dropped := set f | f in s.events && IsCancelled(s, f) && Before(f, e);
    var w := Forget(s, dropped);
    ForgetInv(s, dropped);
    forall f <- w.events ensures e.time <= f.time {
      if !IsCancelled(s, f) {
        assert f in Live(s) && !Before(f, e);
      }
    }
    TakeOut(w, e);
    LiveWithout(w, PlainPopped(s, e), e);
  }

  /** Both pops take the same entry and leave states that are alike. */
  lemma {:induction false} SimilarPops<P>(s: State<P>, r: State<P>)
    requires Similar(s, r) && Live(s) != {}
    ensures var e := Top(Live(s)); e == Chosen(r, 0) && Alike(PlainPopped(s, e), Popped(r, e))
  {
    FifoPicksTop(r);
    TopUnique(s, Top(Live(s)), Chosen(r, 0));
    PlainPopCorrect(s);
    PopCorrect(r, 0);
  }

  lemma {:induction false} SimilarStep<P>(s: State<P>, r: State<P>, w: Work<P>)
    requires Similar(s, r) && Idle(s) && Idle(r) && Step(r, Label(0, w)).nextTask < W
    ensures Similar(PlainStep(s, w), Step(r, Label(0, w))) && Idle(PlainStep(s, w)) && Idle(Step(r, Label(0, w)))
    ensures Live(s) != {} ==> Top(Live(s)) == Chosen(r, 0)
  {
    StepInv(r, Label(0, w));
    if Live(s) == {} {
      SweepInv(s, MAX_NANOS);
      SweepInv(r, MAX_NANOS);
    } else {
      var e := Top(Live(s));
      SimilarPops(s, r);
      PlainPopCorrect(s);
      PopCorrect(r, 0);
      SimilarProcess(PlainPopped(s, e), Popped(r, e), e, w);
    }
  }

  lemma {:induction false} SimilarProcess<P>(s: State<P>, r: State<P>, e: Entry<P>, w: Work<P>)
    requires Alike(s, r) && s.executing.None?
    requires e.ComponentEvent? ==> Inv(s) && Inv(r)
    requires e.TaskEvent? ==>
      && e.taskId in s.pending && e.taskId !in s.cancelled && Inv(Started(s, e.taskId))
         && RunningOk(Started(s, e.taskId))
      && e.taskId in r.pending && e.taskId !in r.cancelled && Inv(Started(r, e.taskId))
         && RunningOk(Started(r, e.taskId))
    requires Drain(Process(r, e, w)).nextTask < W
    ensures var q := Drain(Process(s, e, w)); Similar(q, Drain(Process(r, e, w))) && Idle(q)
  {
    var p, q := Process(s, e, w), Process(r, e, w);
    DrainAllNextTask(q, q.deferred);
    match e {
      case ComponentEvent(_, _, _, _) => SimilarDoAll(s, r, w.commands);
      case TaskEvent(_, _, id) =>
        LiveSame(Started(s, id), s);
        LiveSame(Started(r, id), r);
        SimilarExecute(s, r, id, w);
    }
    SimilarDrain(p, q);
    DrainInv(p);
  }

  lemma {:induction false} SimilarMove<P>(s: State<P>, r: State<P>, m: Move<P>)
    requires Similar(s, r) && Idle(s) && Idle(r) && Make(r, m).nextTask < W
    requires m.Turn? ==> m.l.pick == 0
    ensures Similar(PlainMake(s, m), Make(r, m)) && Idle(PlainMake(s, m)) && Idle(Make(r, m))
    ensures PlainProcessedBy(s, m) == ProcessedBy(r, m)
  {
    match m
    case Turn(l) =>
      assert l == Label(0, l.work);
      SimilarStep(s, r, l.work);
    case Drive(cs) =>
      SimilarDoAll(s, r, cs);
  }

  /**
   * Repeated plain pops and repeated FIFO pops process the same entries, so read the same clocks,
   * for ever, whatever is done between them.
   */
  lemma {:induction false} PopEqualsFifo<P>(s: State<P>, r: State<P>, ms: seq<Move<P>>)
    requires Similar(s, r) && Idle(s) && Idle(r) && Run(r, ms).nextTask < W
    requires forall m <- ms :: m.Turn? ==> m.l.pick == 0
    ensures PlainProcessed(s, ms) == Processed(r, ms)
    decreases |ms|
  {
    if ms != [] {
      RunNextTask(Make(r, ms[0]), ms[1..]);
      SimilarMove(s, r, ms[0]);
      PopEqualsFifo(PlainMake(s, ms[0]), Make(r, ms[0]), ms[1..]);
    }
  }
}
