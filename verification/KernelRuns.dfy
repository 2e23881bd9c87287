/** Properties of whole kernel runs: the order of processing, and cancellation. */
module KernelRuns {
  import opened SimTime
  import opened Ids
  import opened Vectors
  import opened Kernel
  import opened KernelInvariants

  /** The entries a run processes, in order. */
  ghost function Processed<P>(s: State<P>, ms: seq<Move<P>>): seq<Entry<P>>
    decreases |ms|
  {
    if ms == [] then []
    else ProcessedBy(s, ms[0]) + Processed(Make(s, ms[0]), ms[1..])
  }

  ghost function ProcessedBy<P>(s: State<P>, m: Move<P>): seq<Entry<P>> {
    if m.Turn? && Live(s) != {} then [Chosen(s, m.l.pick)] else []
  }

  // ----- processing only adds entries, and only later ones -----

  ghost predicate Grew<P>(s: State<P>, r: State<P>) {
    && r.clock == s.clock && r.mint == s.mint
    && r.nextEvent >= s.nextEvent && r.nextTask >= s.nextTask
    && s.events <= r.events
    && (forall e <- r.events - s.events :: e.time >= s.clock && e.eventId > s.nextEvent)
  }

  lemma {:induction false} DoAllGrows<P>(s: State<P>, cs: seq<Command<P>>)
    ensures Grew(s, DoAll(s, cs))
    decreases |cs|
  {
    if cs != [] {
      assert Grew(s, Do(s, cs[0]));
      DoAllGrows(Do(s, cs[0]), cs[1..]);
    }
  }

  lemma {:induction false} DrainAllGrows<P>(s: State<P>, ds: seq<Deferred<P>>)
    ensures Grew(s, DrainAll(s, ds))
    decreases |ds|
  {
    if ds != [] {
      DrainAllGrows(PushComponent(s, ds[0].delay, ds[0].component, ds[0].payload), ds[1..]);
    }
  }

  lemma {:induction false} ExecuteGrows<P>(s: State<P>, id: Uuid, w: Work<P>)
    ensures Grew(s, Execute(s, id, w))
  {
    if id !in s.cancelled && id in s.pending {
      var t := Started(s, id);
      DoAllGrows(t, w.commands);
    }
  }

  lemma {:induction false} StepGrows<P>(s: State<P>, l: Label<P>)
    requires Live(s) != {}
    ensures Grew(Popped(s, Chosen(s, l.pick)), Step(s, l))
  {
    var e := Chosen(s, l.pick);
    var p := Popped(s, e);
    match e {
      case ComponentEvent(_, _, _, _) => DoAllGrows(p, l.work.commands);
      case TaskEvent(_, _, id) => ExecuteGrows(p, id, l.work);
    }
    var q := Process(p, e, l.work);
    DrainAllGrows(q, q.deferred);
  }

  /** Where the processed code starts: a task has just left the pending table. */
  ghost function Entered<P>(s: State<P>, pick: nat): State<P>
    requires Live(s) != {}
  {
    var e := Chosen(s, pick);
    if e.TaskEvent? then Started(Popped(s, e), e.taskId) else Popped(s, e)
  }

  // ----- FIFO order -----

  /** Every entry still queued comes after `last`, and so will every entry yet to be scheduled. */
  ghost predicate AllAfter<P>(s: State<P>, last: Entry<P>) {
    && last.time <= s.clock && last.eventId <= s.nextEvent
    && (forall e <- s.events :: Before(last, e))
  }

  /** Answer 0 picks the least entry in heap order. */
  lemma {:induction false} FifoPicksTop<P>(s: State<P>)
    requires Live(s) != {}
    ensures IsTop(Chosen(s, 0), Live(s))
  {
    var e := Chosen(s, 0);
    assert e == Top(Frontier(s));
    forall f <- Live(s) ensures !Before(f, e) {
      assert f.time > e.time || f in Frontier(s) by {
        assert !Before(f, Top(Live(s)));
      }
    }
  }

  lemma {:induction false} FifoStep<P>(s: State<P>, l: Label<P>)
    requires Idle(s) && l.pick == 0 && Live(s) != {}
    ensures AllAfter(Step(s, l), Chosen(s, 0))
  {
    var e := Chosen(s, 0);
    FifoPicksTop(s);
    PopCorrect(s, 0);
    StepGrows(s, l);
    var p := Popped(s, e);
    forall f <- p.events ensures Before(e, f) {
      if !IsCancelled(s, f) {
        assert f in Live(s) && !Before(f, e);
      }
    }
  }

  lemma {:induction false} DriveAfter<P>(s: State<P>, cs: seq<Command<P>>, last: Entry<P>)
    requires AllAfter(s, last)
    ensures AllAfter(DoAll(s, cs), last)
  {
    DoAllGrows(s, cs);
    GrewAfter(s, DoAll(s, cs), last);
  }

  lemma {:induction false} TurnAfter<P>(s: State<P>, l: Label<P>, last: Entry<P>)
    requires Idle(s) && AllAfter(s, last)
    ensures AllAfter(Step(s, l), last) && forall e <- ProcessedBy(s, Turn(l)) :: Before(last, e)
  {
    if Live(s) != {} {
      var e := Chosen(s, l.pick);
      PopCorrect(s, l.pick);
      StepGrows(s, l);
      GrewAfter(Popped(s, e), Step(s, l), last);
    }
  }

  lemma {:induction false} GrewAfter<P>(s: State<P>, r: State<P>, last: Entry<P>)
    requires AllAfter(s, last) && Grew(s, r)
    ensures AllAfter(r, last)
  {}

  lemma {:induction false} ProcessedAfter<P>(s: State<P>, ms: seq<Move<P>>, last: Entry<P>)
    requires Idle(s) && Run(s, ms).nextTask < W && AllAfter(s, last)
    ensures forall e <- Processed(s, ms) :: Before(last, e)
    decreases |ms|
  {
    if ms != [] {
      var r := Make(s, ms[0]);
      RunNextTask(r, ms[1..]);
      MakeInv(s, ms[0]);
      match ms[0] {
        case Turn(l) => TurnAfter(s, l, last);
        case Drive(cs) => DriveAfter(s, cs, last);
      }
      ProcessedAfter(r, ms[1..], last);
    }
  }

  lemma {:induction false} IncreasingCons<P>(e: Entry<P>, es: seq<Entry<P>>)
    requires Increasing(es) && forall f <- es :: Before(e, f)
    ensures Increasing([e] + es)
  {
    assert ([e] + es)[1..] == es;
  }

  /**
   * Under the FIFO policy, entries are processed in strictly increasing (time, event id) order over
   * the whole run, including those scheduled or deferred on the way, inside or between steps.
   */
  lemma {:induction false} FifoOrder<P>(s: State<P>, ms: seq<Move<P>>)
    requires Idle(s) && Run(s, ms).nextTask < W
    requires forall m <- ms :: m.Turn? ==> m.l.pick == 0
    ensures Increasing(Processed(s, ms))
    decreases |ms|
  {
    if ms != [] {
      var r := Make(s, ms[0]);
      RunNextTask(r, ms[1..]);
      MakeInv(s, ms[0]);
      FifoOrder(r, ms[1..]);
      if ms[0].Turn? && Live(s) != {} {
        FifoStep(s, ms[0].l);
        ProcessedAfter(r, ms[1..], Chosen(s, 0));
        IncreasingCons(Chosen(s, 0), Processed(r, ms[1..]));
      } else {
        assert Processed(s, ms) == Processed(r, ms[1..]);
      }
    }
  }

  /** In numbers: of two entries processed under FIFO, the first is earlier, or as early and scheduled before. */
  lemma {:induction false} FifoPairs<P>(s: State<P>, ms: seq<Move<P>>, i: nat, j: nat)
    requires Idle(s) && Run(s, ms).nextTask < W
    requires (forall m <- ms :: m.Turn? ==> m.l.pick == 0) && i < j < |Processed(s, ms)|
    ensures var e, f := Processed(s, ms)[i], Processed(s, ms)[j];
            e.time < f.time || (e.time == f.time && e.eventId < f.eventId)
  {
    FifoOrder(s, ms);
    IncreasingAt(Processed(s, ms), i, j);
  }

  // ----- every entry is processed once -----

  /** An event id that was handed out and is not queued. */
  ghost predicate Spent<P>(s: State<P>, n: nat) {
    n <= s.nextEvent && forall e <- s.events :: e.eventId != n
  }

  lemma {:induction false} SpentKept<P>(s: State<P>, m: Move<P>, n: nat)
    requires Spent(s, n)
    ensures Spent(Make(s, m), n) && forall e <- ProcessedBy(s, m) :: e.eventId != n
  {
    match m
    case Turn(l) => if Live(s) != {} { StepGrows(s, l); }
    case Drive(cs) => DoAllGrows(s, cs);
  }

  lemma {:induction false} SpentForever<P>(s: State<P>, ms: seq<Move<P>>, n: nat)
    requires Spent(s, n)
    ensures Spent(Run(s, ms), n) && forall e <- Processed(s, ms) :: e.eventId != n
    decreases |ms|
  {
    if ms != [] {
      SpentKept(s, ms[0], n);
      SpentForever(Make(s, ms[0]), ms[1..], n);
    }
  }

  lemma {:induction false} StepSpends<P>(s: State<P>, l: Label<P>)
    requires Inv(s) && Live(s) != {}
    ensures Spent(Step(s, l), Chosen(s, l.pick).eventId) && Step(s, l).clock == Chosen(s, l.pick).time
  {
    StepGrows(s, l);
  }

  ghost predicate DistinctIds<P>(es: seq<Entry<P>>) {
    forall i, j :: 0 <= i < j < |es| ==> es[i].eventId != es[j].eventId
  }

  lemma {:induction false} DistinctIdsCons<P>(e: Entry<P>, es: seq<Entry<P>>)
    requires DistinctIds(es) && forall f <- es :: f.eventId != e.eventId
    ensures DistinctIds([e] + es)
  {}

  /** Whatever policies answer, no run processes an event id twice. */
  lemma {:induction false} EachEventOnce<P>(s: State<P>, ms: seq<Move<P>>)
    requires Idle(s) && Run(s, ms).nextTask < W
    ensures DistinctIds(Processed(s, ms))
    decreases |ms|
  {
    if ms != [] {
      var r := Make(s, ms[0]);
      RunNextTask(r, ms[1..]);
      MakeInv(s, ms[0]);
      EachEventOnce(r, ms[1..]);
      if ms[0].Turn? && Live(s) != {} {
        var e := Chosen(s, ms[0].l.pick);
        StepSpends(s, ms[0].l);
        SpentForever(r, ms[1..], e.eventId);
        DistinctIdsCons(e, Processed(r, ms[1..]));
      } else {
        assert Processed(s, ms) == Processed(r, ms[1..]);
      }
    }
  }

  // ----- every entry is processed at its time -----

  /**
   * Follows one live entry through a run: the clock never passes its time and the run is not over
   * before it; it stays queued until it is processed, when the clock is exactly at its time, once
   * and for all, or until its task is cancelled.
   */
  ghost predicate HonoursEntry<P>(s: State<P>, ms: seq<Move<P>>, e: Entry<P>)
    decreases |ms|
  {
    && e in Live(s) && s.clock <= e.time
    && (ms != [] ==>
          var m, r := ms[0], Make(s, ms[0]);
          && r.clock <= e.time
          && if m.Turn? && Chosen(s, m.l.pick) == e then r.clock == e.time && Spent(r, e.eventId)
             else e in r.events && (IsCancelled(r, e) || HonoursEntry(r, ms[1..], e)))
  }

  lemma {:induction false} MoveHonours<P>(s: State<P>, m: Move<P>, e: Entry<P>)
    requires Idle(s) && e in Live(s)
    ensures Make(s, m).clock <= e.time
    ensures if m.Turn? && Chosen(s, m.l.pick) == e
            then Make(s, m).clock == e.time && Spent(Make(s, m), e.eventId)
            else e in Make(s, m).events
  {
    match m
    case Turn(l) =>
      PopCorrect(s, l.pick);
      StepGrows(s, l);
      StepSpends(s, l);
      assert Chosen(s, l.pick) != e ==> e in Live(Popped(s, Chosen(s, l.pick)));
    case Drive(cs) => DoAllGrows(s, cs);
  }

  /** For any policy, and whatever is done in and between the steps. */
  lemma {:induction false} EntriesAreExact<P>(s: State<P>, ms: seq<Move<P>>, e: Entry<P>)
    requires Idle(s) && e in Live(s) && Run(s, ms).nextTask < W
    ensures HonoursEntry(s, ms, e)
    decreases |ms|
  {
    if ms != [] {
      var r := Make(s, ms[0]);
      RunNextTask(r, ms[1..]);
      MakeInv(s, ms[0]);
      MoveHonours(s, ms[0], e);
      if e in Live(r) {
        EntriesAreExact(r, ms[1..], e);
      }
    }
  }

  /** A new entry for the component, due so long after the present instant, or at the end of time if that is sooner. */
  ghost predicate IsNewFor<P>(s: State<P>, e: Entry<P>, delay: Time, component: Uuid, payload: P, now: Time) {
    && e.ComponentEvent? && e.eventId > s.nextEvent && e.component == component && e.payload == payload
    && e.time == if now + delay <= MAX_NANOS then now + delay else MAX_NANOS
  }

  lemma {:induction false} DoAllSchedules<P>(
      s: State<P>, cs: seq<Command<P>>, delay: Time, component: Uuid, payload: P)
    requires Schedule(delay, component, payload) in cs
    ensures exists e <- DoAll(s, cs).events :: IsNewFor(s, e, delay, component, payload, s.clock)
    decreases |cs|
  {
    var s1 := Do(s, cs[0]);
    if cs[0] == Schedule(delay, component, payload) {
      DoAllGrows(s1, cs[1..]);
      var e := ComponentEvent(s.nextEvent + 1, Plus(s.clock, delay), component, payload);
      assert e in s1.events && e in DoAll(s, cs).events && IsNewFor(s, e, delay, component, payload, s.clock);
    } else {
      DoAllSchedules(s1, cs[1..], delay, component, payload);
      var e :| e in DoAll(s1, cs[1..]).events && IsNewFor(s1, e, delay, component, payload, s.clock);
      assert IsNewFor(s, e, delay, component, payload, s.clock);
    }
  }

  lemma {:induction false} DoAllDefers<P>(s: State<P>, cs: seq<Command<P>>)
    ensures s.deferred <= DoAll(s, cs).deferred
    decreases |cs|
  {
    if cs != [] {
      DoAllDefers(Do(s, cs[0]), cs[1..]);
    }
  }

  lemma {:induction false} DoAllDefersEach<P>(s: State<P>, cs: seq<Command<P>>, d: Deferred<P>)
    requires Defer(d) in cs
    ensures d in DoAll(s, cs).deferred
    decreases |cs|
  {
    var s1 := Do(s, cs[0]);
    if cs[0] == Defer(d) {
      DoAllDefers(s1, cs[1..]);
      assert d in s1.deferred;
    } else {
      DoAllDefersEach(s1, cs[1..], d);
    }
  }

  lemma {:induction false} DrainAdds<P>(s: State<P>, d: Deferred<P>)
    requires d in s.deferred
    ensures exists e <- Drain(s).events :: IsNewFor(s, e, d.delay, d.component, d.payload, s.clock)
  {
    DrainSchedules(s, s.deferred);
    var i :| 0 <= i < |s.deferred| && s.deferred[i] == d;
    var e := WakeEntry(s.deferred[i], s.nextEvent + 1 + i, s.clock);
    assert e in WakeEntries(s.deferred, s.nextEvent, s.clock);
    assert e in Drain(s).events && IsNewFor(s, e, d.delay, d.component, d.payload, s.clock);
  }

  /** Asked for by the code of a step, directly or as a deferred wake. */
  predicate Asks<P(==)>(w: Work<P>, delay: Time, component: Uuid, payload: P) {
    Schedule(delay, component, payload) in w.commands || Defer(Deferred(delay, component, payload)) in w.commands
  }

  /** What the processed code asks for is queued when the step ends. */
  lemma {:induction false} AskedIsQueued<P>(s: State<P>, l: Label<P>, delay: Time, component: Uuid, payload: P)
    returns (e: Entry<P>)
    requires Inv(s) && Live(s) != {} && Asks(l.work, delay, component, payload)
    ensures e in Step(s, l).events && IsNewFor(s, e, delay, component, payload, Step(s, l).clock)
  {
    var start, p := Entered(s, l.pick), Process(Popped(s, Chosen(s, l.pick)), Chosen(s, l.pick), l.work);
    PopCorrect(s, l.pick);
    StepSpends(s, l);
    ProcessEnds(s, l);
    DrainAllGrows(p, p.deferred);
    if Schedule(delay, component, payload) in l.work.commands {
      DoAllSchedules(start, l.work.commands, delay, component, payload);
      e :| e in DoAll(start, l.work.commands).events && IsNewFor(start, e, delay, component, payload, start.clock);
    } else {
      var d := Deferred(delay, component, payload);
      DoAllDefersEach(start, l.work.commands, d);
      DrainAdds(p, d);
      e :| e in Drain(p).events && IsNewFor(p, e, delay, component, payload, p.clock);
    }
  }

  lemma {:induction false} ExecuteEnds<P>(s: State<P>, id: Uuid, w: Work<P>)
    requires id in s.pending && id !in s.cancelled
    ensures var p, d := Execute(s, id, w), DoAll(Started(s, id), w.commands);
            d.events <= p.events && d.deferred == p.deferred && d.nextEvent <= p.nextEvent && p.clock == s.clock
  {}

  /** Processing starts where the entry's code starts, and loses nothing that the code schedules or defers. */
  lemma {:induction false} ProcessEnds<P>(s: State<P>, l: Label<P>)
    requires Inv(s) && Live(s) != {}
    ensures var start, e := Entered(s, l.pick), Chosen(s, l.pick);
            var p, d := Process(Popped(s, e), e, l.work), DoAll(start, l.work.commands);
            && start.nextEvent == s.nextEvent && start.clock == p.clock == e.time
            && p.nextEvent >= s.nextEvent && d.events <= p.events && d.deferred == p.deferred
  {
    var e := Chosen(s, l.pick);
    PopCorrect(s, l.pick);
    DoAllGrows(Entered(s, l.pick), l.work.commands);
    if e.TaskEvent? {
      ExecuteEnds(Popped(s, e), e.taskId, l.work);
    }
  }

  /**
   * An event scheduled or deferred with a delay by code running at time t is processed exactly once,
   * with the clock exactly at t plus the delay, in every run long enough.
   */
  lemma {:induction false} ScheduledIsExact<P>(
      s: State<P>, l: Label<P>, ms: seq<Move<P>>, delay: Time, component: Uuid, payload: P)
    returns (e: Entry<P>)
    requires Idle(s) && Live(s) != {} && Run(Step(s, l), ms).nextTask < W
    requires Asks(l.work, delay, component, payload)
    ensures IsNewFor(s, e, delay, component, payload, Step(s, l).clock) && HonoursEntry(Step(s, l), ms, e)
  {
    RunNextTask(Step(s, l), ms);
    StepInv(s, l);
    e := AskedIsQueued(s, l, delay, component, payload);
    EntriesAreExact(Step(s, l), ms, e);
  }

  /** The same for what a driver schedules between steps. */
  lemma {:induction false} DrivenIsExact<P>(
      s: State<P>, cs: seq<Command<P>>, ms: seq<Move<P>>, delay: Time, component: Uuid, payload: P)
    returns (e: Entry<P>)
    requires Idle(s) && Run(DoAll(s, cs), ms).nextTask < W && Schedule(delay, component, payload) in cs
    ensures IsNewFor(s, e, delay, component, payload, s.clock) && HonoursEntry(DoAll(s, cs), ms, e)
  {
    var r := DoAll(s, cs);
    RunNextTask(r, ms);
    DriveInv(s, cs);
    DoAllSchedules(s, cs, delay, component, payload);
    e :| e in r.events && IsNewFor(s, e, delay, component, payload, s.clock);
    EntriesAreExact(r, ms, e);
  }

  // ----- what a step can do to a task it does not run -----

  /** From s to r, task `id` was at most cancelled: it was not scheduled anew, changed or finished. */
  ghost predicate AtMostCancelled<P>(s: State<P>, r: State<P>, id: Uuid) {
    && (id in r.pending ==> id in s.pending && r.pending[id] == s.pending[id])
    && (id in r.completed ==> id in s.completed)
    && (forall e <- r.events :: e.TaskEvent? && e.taskId == id ==> e in s.events)
    && r.mint == s.mint && r.nextTask >= s.nextTask
  }

  lemma {:induction false} DoKeeps<P>(s: State<P>, c: Command<P>, id: Uuid)
    requires Inv(s) && Issued(s, id) && Do(s, c).nextTask < W
    ensures AtMostCancelled(s, Do(s, c), id)
    ensures c != Cancel(id) && id in s.pending ==> id in Do(s, c).pending
  {
    if c.Spawn? {
      SpawnIdIsNew(s);
    }
  }

  lemma {:induction false} DoAllKeeps<P>(s: State<P>, cs: seq<Command<P>>, id: Uuid)
    requires Inv(s) && Issued(s, id) && DoAll(s, cs).nextTask < W
    ensures AtMostCancelled(s, DoAll(s, cs), id)
    ensures Cancel(id) !in cs && id in s.pending ==> id in DoAll(s, cs).pending
    decreases |cs|
  {
    if cs != [] {
      var r := Do(s, cs[0]);
      DoKeeps(s, cs[0], id);
      DoInv(s, cs[0]);
      SameIssued(s, r);
      DoAllKeeps(r, cs[1..], id);
    }
  }

  lemma {:induction false} DrainAllKeeps<P>(s: State<P>, ds: seq<Deferred<P>>, id: Uuid)
    ensures var r := DrainAll(s, ds); AtMostCancelled(s, r, id) && r.pending == s.pending && r.completed == s.completed
    decreases |ds|
  {
    if ds != [] {
      DrainAllKeeps(PushComponent(s, ds[0].delay, ds[0].component, ds[0].payload), ds[1..], id);
    }
  }

  lemma {:induction false} ExecuteOtherKeeps<P>(s: State<P>, other: Uuid, w: Work<P>, id: Uuid)
    requires other in s.pending && other !in s.cancelled && s.executing.None? && id != other
    requires Inv(Started(s, other)) && RunningOk(Started(s, other)) && Execute(s, other, w).nextTask < W
    requires Issued(s, id)
    ensures AtMostCancelled(s, Execute(s, other, w), id)
    ensures Cancel(id) !in w.commands && id in s.pending ==> id in Execute(s, other, w).pending
  {
    var t := Started(s, other);
    SameIssued(s, t);
    DoAllKeeps(t, w.commands, id);
  }

  predicate Runs<P>(e: Entry<P>, id: Uuid) {
    e.TaskEvent? && e.taskId == id
  }

  /** A step that runs something else can at most cancel a task. */
  lemma {:induction false} StepKeeps<P>(s: State<P>, l: Label<P>, id: Uuid)
    requires Idle(s) && Issued(s, id) && Step(s, l).nextTask < W
    requires Live(s) != {} ==> !Runs(Chosen(s, l.pick), id)
    ensures AtMostCancelled(s, Step(s, l), id)
    ensures Cancel(id) !in l.work.commands && id in s.pending ==> id in Step(s, l).pending
  {
    if Live(s) != {} {
      var e := Chosen(s, l.pick);
      PopCorrect(s, l.pick);
      var p := Popped(s, e);
      SameIssued(s, p);
      var q := Process(p, e, l.work);
      DrainAllNextTask(q, q.deferred);
      match e {
        case ComponentEvent(_, _, _, _) => DoAllKeeps(p, l.work.commands, id);
        case TaskEvent(_, _, other) => ExecuteOtherKeeps(p, other, l.work, id);
      }
      DrainAllKeeps(q, q.deferred, id);
    }
  }

  // ----- cancellation is final -----

  /** An id that was handed out but is not scheduled; it may have finished. */
  ghost predicate Gone<P>(s: State<P>, id: Uuid) {
    Issued(s, id) && id !in s.pending
  }

  lemma {:induction false} GoneIsNotChosen<P>(s: State<P>, pick: nat, id: Uuid)
    requires Idle(s) && Gone(s, id) && Live(s) != {}
    ensures !Runs(Chosen(s, pick), id)
  {
    PopCorrect(s, pick);
  }

  lemma {:induction false} GoneKept<P>(s: State<P>, m: Move<P>, id: Uuid)
    requires Idle(s) && Gone(s, id) && Make(s, m).nextTask < W
    ensures Gone(Make(s, m), id)
    ensures forall e <- ProcessedBy(s, m) :: !Runs(e, id)
    ensures id !in s.completed ==> id !in Make(s, m).completed
  {
    match m {
      case Turn(l) =>
        if Live(s) != {} {
          GoneIsNotChosen(s, l.pick, id);
        }
        StepKeeps(s, l, id);
      case Drive(cs) =>
        DoAllKeeps(s, cs, id);
    }
    SameIssued(s, Make(s, m));
  }

  lemma {:induction false} GoneForever<P>(s: State<P>, ms: seq<Move<P>>, id: Uuid)
    requires Idle(s) && Gone(s, id) && Run(s, ms).nextTask < W
    ensures Gone(Run(s, ms), id)
    ensures forall e <- Processed(s, ms) :: !Runs(e, id)
    ensures id !in s.completed ==> id !in Run(s, ms).completed
    decreases |ms|
  {
    if ms != [] {
      RunNextTask(Make(s, ms[0]), ms[1..]);
      GoneKept(s, ms[0], id);
      MakeInv(s, ms[0]);
      GoneForever(Make(s, ms[0]), ms[1..], id);
    }
  }

  /**
   * Cancelling a pending task is final: in no continuation, whatever is scheduled in it or between
   * its steps, is the task's entry processed (so it never moves the clock), nor is a result ever
   * stored for it. This covers retry and periodic chains.
   */
  lemma {:induction false} CancellationIsFinal<P>(s: State<P>, id: Uuid, ms: seq<Move<P>>)
    requires Idle(s) && id in s.pending && Run(CancelTask(s, id), ms).nextTask < W
    ensures var r := Run(CancelTask(s, id), ms); id !in r.pending && id !in r.completed
    ensures forall e <- Processed(CancelTask(s, id), ms) :: !Runs(e, id)
  {
    CancelInv(s, id);
    GoneForever(CancelTask(s, id), ms, id);
  }

  /** The same for a cancellation issued by code running inside a step, between other commands. */
  lemma {:induction false} CancellationInsideAStepIsFinal<P>(
      s: State<P>, l: Label<P>, before: seq<Command<P>>, id: Uuid, after: seq<Command<P>>, ms: seq<Move<P>>)
    requires Idle(s) && Live(s) != {} && Run(Step(s, l), ms).nextTask < W
    requires l.work.commands == before + [Cancel(id)] + after
    requires id in DoAll(Entered(s, l.pick), before).pending
    ensures var r := Run(Step(s, l), ms); id !in r.pending && id !in r.completed
    ensures forall e <- Processed(Step(s, l), ms) :: !Runs(e, id)
  {
    RunNextTask(Step(s, l), ms);
    CancelledByStep(s, l, before, id, after);
    StepInv(s, l);
    GoneForever(Step(s, l), ms, id);
  }

  lemma {:induction false} CancelledByStep<P>(
      s: State<P>, l: Label<P>, before: seq<Command<P>>, id: Uuid, after: seq<Command<P>>)
    requires Idle(s) && Live(s) != {} && Step(s, l).nextTask < W
    requires l.work.commands == before + [Cancel(id)] + after
    requires id in DoAll(Entered(s, l.pick), before).pending
    ensures Gone(Step(s, l), id) && id !in Step(s, l).completed
  {
    var e := Chosen(s, l.pick);
    PopCorrect(s, l.pick);
    var p := Popped(s, e);
    var q := Process(p, e, l.work);
    DrainAllNextTask(q, q.deferred);
    if e.TaskEvent? {
      CancelledByTask(p, e.taskId, l.work, before, id, after);
    } else {
      CancelAmongCommands(p, before, id, after);
    }
    DrainAllKeeps(q, q.deferred, id);
    SameIssued(q, Step(s, l));
  }

  lemma {:induction false} CancelledByTask<P>(
      s: State<P>, task: Uuid, w: Work<P>, before: seq<Command<P>>, id: Uuid, after: seq<Command<P>>)
    requires task in s.pending && task !in s.cancelled && s.executing.None? && Execute(s, task, w).nextTask < W
    requires var t := Started(s, task); Inv(t) && RunningOk(t) && id in DoAll(t, before).pending
    requires w.commands == before + [Cancel(id)] + after
    ensures Gone(Execute(s, task, w), id) && id !in Execute(s, task, w).completed
  {
    var t := Started(s, task);
    CancelAmongCommands(t, before, id, after);
    SameIssued(DoAll(t, w.commands), Execute(s, task, w));
  }

  lemma {:induction false} DoAllAppend<P>(s: State<P>, a: seq<Command<P>>, b: seq<Command<P>>)
    ensures DoAll(s, a + b) == DoAll(DoAll(s, a), b)
    decreases |a|
  {
    if a == [] {
      assert a + b == b;
    } else {
      TailOfConcat(a, b);
      DoAllAppend(Do(s, a[0]), a[1..], b);
    }
  }

  lemma {:induction false} DoAllAround<P>(s: State<P>, before: seq<Command<P>>, c: Command<P>, after: seq<Command<P>>)
    ensures DoAll(s, before + [c] + after) == DoAll(Do(DoAll(s, before), c), after)
  {
    var b := DoAll(s, before);
    DoAllAppend(s, before + [c], after);
    DoAllAppend(s, before, [c]);
    assert DoAll(b, [c]) == DoAll(Do(b, c), []);
  }

  /** After a cancellation the commands that follow cannot bring the task back. */
  lemma {:induction false} CancelThen<P>(b: State<P>, id: Uuid, after: seq<Command<P>>)
    requires Inv(b) && RunningOk(b) && id in b.pending && DoAll(Do(b, Cancel(id)), after).nextTask < W
    ensures var r := DoAll(Do(b, Cancel(id)), after);
            Gone(r, id) && id !in r.completed && (b.executing.Some? ==> b.executing.value != id)
  {
    var c := Do(b, Cancel(id));
    DoInv(b, Cancel(id));
    SameIssued(b, c);
    DoAllKeeps(c, after, id);
    SameIssued(c, DoAll(c, after));
  }

  lemma {:induction false} CancelAmongCommands<P>(
      s: State<P>, before: seq<Command<P>>, id: Uuid, after: seq<Command<P>>)
    requires Inv(s) && RunningOk(s) && DoAll(s, before + [Cancel(id)] + after).nextTask < W
    requires id in DoAll(s, before).pending
    ensures var r := DoAll(s, before + [Cancel(id)] + after);
            Gone(r, id) && id !in r.completed && (s.executing.Some? ==> s.executing.value != id)
  {
    DoAllAround(s, before, Cancel(id), after);
    DoAllInv(s, before);
    CancelThen(DoAll(s, before), id, after);
  }
}
