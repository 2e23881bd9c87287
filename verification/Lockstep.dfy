/** Two oracles that answer alike drive a deterministic simulation through the same states. */
module Lockstep {
  import opened Ids
  import opened Vectors
  import opened Scheduling
  import opened KernelInvariants
  import opened Traces
  import opened Runtime
  import opened RuntimeSteps
  import opened RuntimePolling
  import opened ClosedLoop
  import Kernel

  // ----- distinct event ids in every reachable state -----

  lemma {:induction false} DoAllQueue<P>(s: Kernel.State<P>, cs: seq<Kernel.Command<P>>)
    requires QueueOk(s)
    ensures QueueOk(Kernel.DoAll(s, cs))
    decreases |cs|
  {
    if cs != [] {
      DoAllQueue(Kernel.Do(s, cs[0]), cs[1..]);
    }
  }

  lemma {:induction false} DrainAllQueue<P>(s: Kernel.State<P>, ds: seq<Kernel.Deferred<P>>)
    requires QueueOk(s)
    ensures QueueOk(Kernel.DrainAll(s, ds))
    decreases |ds|
  {
    if ds != [] {
      DrainAllQueue(Kernel.PushComponent(s, ds[0].delay, ds[0].component, ds[0].payload), ds[1..]);
    }
  }

  lemma {:induction false} ExecuteQueue<P>(s: Kernel.State<P>, id: Uuid, w: Kernel.Work<P>)
    requires QueueOk(s)
    ensures QueueOk(Kernel.Execute(s, id, w))
  {
    if id !in s.cancelled && id in s.pending {
      DoAllQueue(Kernel.Started(s, id), w.commands);
    }
  }

  lemma {:induction false} ProcessQueue<P>(s: Kernel.State<P>, e: Kernel.Entry<P>, w: Kernel.Work<P>)
    requires QueueOk(s)
    ensures QueueOk(Kernel.Process(s, e, w))
  {
    match e
    case ComponentEvent(_, _, _, _) => DoAllQueue(s, w.commands);
    case TaskEvent(_, _, id) => ExecuteQueue(s, id, w);
  }

  lemma {:induction false} PoppedQueue<P>(s: Kernel.State<P>, pick: nat)
    requires QueueOk(s) && Kernel.Live(s) != {}
    ensures QueueOk(Kernel.Popped(s, Kernel.Chosen(s, pick)))
  {
    var e := Kernel.Chosen(s, pick);
    var r := Kernel.Popped(s, e);
    forall f <- r.events ensures e.time <= f.time {
      if !Kernel.IsCancelled(s, f) {
        assert f in Kernel.Live(s) && !Kernel.Before(f, Kernel.Top(Kernel.Live(s)));
      }
    }
  }

  lemma {:induction false} StepQueue<P>(s: Kernel.State<P>, l: Kernel.Label<P>)
    requires QueueOk(s)
    ensures QueueOk(Kernel.Step(s, l))
  {
    if Kernel.Live(s) != {} {
      var e := Kernel.Chosen(s, l.pick);
      PoppedQueue(s, l.pick);
      var q := Kernel.Process(Kernel.Popped(s, e), e, l.work);
      ProcessQueue(Kernel.Popped(s, e), e, l.work);
      DrainAllQueue(q, q.deferred);
    }
  }

  lemma {:induction false} StepSound<C, O>(w: World<C>, o: O, prog: Program<C>, oracle: Oracle<O>)
    requires Sound(w)
    ensures Sound(ClosedLoop.Step(w, o, prog, oracle).0)
  {
    var l := ClosedStepIsStep(w, o, prog, oracle);
    StepReady(w.sys, l);
    var kl := StepIsKernelStep(w.sys, l);
    StepQueue(w.sys.k, kl);
  }

  lemma {:induction false} DrivenSound<C, O>(w: World<C>, o: O, prog: Program<C>, oracle: Oracle<O>)
    requires Sound(w)
    ensures Sound(Driven(w, o, prog, oracle).0)
  {
    var acts := Result(w.user, RunCode(prog.drive(w.user, w.sys), [], prog.budget, o, oracle).0).acts;
    DriveReady(w.sys, acts);
    DriveIsKernelDrive(w.sys, acts);
    DoAllQueue(w.sys.k, DriverCommands(acts));
  }

  lemma {:induction false} SortedDistinct<P>(es: set<Kernel.Entry<P>>)
    requires forall e <- es, f <- es :: e.eventId == f.eventId ==> e == f
    ensures Distinct(Seqs(DescribeAll(Kernel.Sorted(es))))
    decreases |es|
  {
    if es != {} {
      var top := Kernel.Top(es);
      var rest := Kernel.Sorted(es - {top});
      SortedDistinct(es - {top});
      var ids := Seqs(DescribeAll(rest));
      forall j | 0 <= j < |ids| ensures ids[j] != top.eventId {
        assert rest[j] in rest;
      }
      DistinctConcat([top.eventId], ids);
      DescribeCons(top, rest);
    }
  }

  lemma {:induction false} DescribeCons<P>(e: Kernel.Entry<P>, rest: seq<Kernel.Entry<P>>)
    ensures Seqs(DescribeAll([e] + rest)) == [e.eventId] + Seqs(DescribeAll(rest))
  {
    assert ([e] + rest)[1..] == rest;
    var d := DescribeAll([e] + rest);
    assert d[1..] == DescribeAll(rest);
  }

  // ----- the lockstep theorem -----

  /** Queries that a sound simulation asks: choices among distinct alternatives. */
  ghost predicate Proper(q: Query) {
    match q
    case AtFrontier(_, frontier) => frontier != [] && Distinct(Seqs(frontier))
    case AtReady(_, ready) => ready != [] && Distinct(ready)
    case AtDraw(_, _) => true
  }

  /** Answers that have the same effect. */
  predicate Same(q: Query, x: nat, y: nat) {
    match q
    case AtFrontier(_, frontier) => Clamp(x, |frontier|) == Clamp(y, |frontier|)
    case AtReady(_, ready) => Clamp(x, |ready|) == Clamp(y, |ready|)
    case AtDraw(_, _) => x == y
  }

  /** A property of the first oracle's states that, once lost, is never regained. */
  ghost predicate Lasting<A(!new)>(first: Oracle<A>, good: A -> bool) {
    forall a, q :: good(first(a, q).0) ==> good(a)
  }

  /** While the first oracle stays good, the second keeps up and answers alike. */
  ghost predicate Tracks<A(!new), B(!new)>(first: Oracle<A>, second: Oracle<B>, good: A -> bool, sync: (A, B) -> bool) {
    forall a, b, q :: Proper(q) && sync(a, b) && good(first(a, q).0) ==>
      sync(first(a, q).0, second(b, q).0) && Same(q, first(a, q).1, second(b, q).1)
  }

  lemma {:induction false} CodeLasts<C, A(!new)>(
      code: Code<C>, got: seq<nat>, budget: nat, a: A, first: Oracle<A>, good: A -> bool)
    requires Lasting(first, good) && good(RunCode(code, got, budget, a, first).1)
    ensures good(a)
    decreases budget
  {
    var reply := code(got);
    if !reply.Done? && budget > 0 {
      var (a', v) := first(a, AtDraw(reply.site, reply.rate));
      CodeLasts(code, got + [v], budget - 1, a', first, good);
    }
  }

  lemma {:induction false} CodeLock<C, A(!new), B(!new)>(
      code: Code<C>, got: seq<nat>, budget: nat, a: A, b: B, first: Oracle<A>, second: Oracle<B>, good: A -> bool,
      sync: (A, B) -> bool)
    requires Lasting(first, good) && Tracks(first, second, good, sync) && sync(a, b)
    requires good(RunCode(code, got, budget, a, first).1)
    ensures var (ra, a') := RunCode(code, got, budget, a, first); var (rb, b') := RunCode(code, got, budget, b, second);
      ra == rb && sync(a', b')
    decreases budget
  {
    var reply := code(got);
    if !reply.Done? && budget > 0 {
      var q := AtDraw(reply.site, reply.rate);
      var (a1, v) := first(a, q);
      CodeLasts(code, got + [v], budget - 1, a1, first, good);
      assert Proper(q) && good(first(a, q).0);
      var b1 := second(b, q).0;
      CodeLock(code, got + [v], budget - 1, a1, b1, first, second, good, sync);
    }
  }

  lemma {:induction false} OneLasts<C, A(!new)>(
      s: Sys, user: C, a: A, prog: Program<C>, first: Oracle<A>, left: seq<TaskId>, good: A -> bool)
    requires left != [] && Lasting(first, good) && good(RoundOne(s, user, a, prog, first, left).2)
    ensures good(a) && good(first(a, AtReady(s.k.clock, left)).0)
  {
    var (a1, pick) := first(a, AtReady(s.k.clock, left));
    var id := left[Clamp(pick, |left|)];
    if id in s.rt.tasks {
      CodeLasts(prog.poll(user, Marked(s, id), id), [], prog.budget, a1, first, good);
    }
  }

  lemma {:induction false} RoundLasts<C, A(!new)>(
      s: Sys, user: C, a: A, prog: Program<C>, first: Oracle<A>, left: seq<TaskId>, good: A -> bool)
    requires Lasting(first, good) && good(PollRound(s, user, a, prog, first, left).2)
    ensures good(a)
    decreases |left|
  {
    if left != [] {
      var (s1, user1, a1, pick) := RoundOne(s, user, a, prog, first, left);
      RoundLasts(s1, user1, a1, prog, first, SwapRemove(left, Clamp(pick, |left|)), good);
      OneLasts(s, user, a, prog, first, left, good);
    }
  }

  /** Same system, same user state, oracles still in step. */
  ghost predicate Together<C, A, B>(x: (Sys, C, A), y: (Sys, C, B), sync: (A, B) -> bool) {
    x.0 == y.0 && x.1 == y.1 && sync(x.2, y.2)
  }

  lemma {:induction false} OneLock<C, A(!new), B(!new)>(
      s: Sys, user: C, a: A, b: B, prog: Program<C>, left: seq<TaskId>, first: Oracle<A>, second: Oracle<B>,
      good: A -> bool, sync: (A, B) -> bool)
    requires left != [] && Distinct(left) && Lasting(first, good) && Tracks(first, second, good, sync) && sync(a, b)
    requires good(RoundOne(s, user, a, prog, first, left).2)
    ensures var (sa, ua, a1, pick) := RoundOne(s, user, a, prog, first, left);
            var (sb, ub, b1, other) := RoundOne(s, user, b, prog, second, left);
      sa == sb && ua == ub && sync(a1, b1) && Clamp(pick, |left|) == Clamp(other, |left|)
  {
    var q := AtReady(s.k.clock, left);
    OneLasts(s, user, a, prog, first, left, good);
    assert Proper(q) && good(first(a, q).0);
    var (a1, pick) := first(a, q);
    var b1 := second(b, q).0;
    var id := left[Clamp(pick, |left|)];
    if id in s.rt.tasks {
      CodeLock(prog.poll(user, Marked(s, id), id), [], prog.budget, a1, b1, first, second, good, sync);
    }
  }

  lemma {:induction false} RoundLock<C, A(!new), B(!new)>(
      s: Sys, user: C, a: A, b: B, prog: Program<C>, left: seq<TaskId>, first: Oracle<A>, second: Oracle<B>,
      good: A -> bool, sync: (A, B) -> bool)
    requires Lasting(first, good) && Tracks(first, second, good, sync) && sync(a, b) && Distinct(left)
    requires good(PollRound(s, user, a, prog, first, left).2)
    ensures Together(PollRound(s, user, a, prog, first, left), PollRound(s, user, b, prog, second, left), sync)
    decreases |left|
  {
    if left != [] {
      var (s1, user1, a1, pick) := RoundOne(s, user, a, prog, first, left);
      var b1 := RoundOne(s, user, b, prog, second, left).2;
      var rest := SwapRemove(left, Clamp(pick, |left|));
      SwapRemoveDistinct(left, Clamp(pick, |left|));
      RoundLasts(s1, user1, a1, prog, first, rest, good);
      OneLock(s, user, a, b, prog, left, first, second, good, sync);
      RoundLock(s1, user1, a1, b1, prog, rest, first, second, good, sync);
    }
  }

  lemma {:induction false} EntryLasts<C, A(!new)>(
      s: Sys, e: Kernel.Entry<Message>, user: C, a: A, prog: Program<C>, first: Oracle<A>, good: A -> bool)
    requires Lasting(first, good) && good(EntryClosed(s, e, user, a, prog, first).2)
    ensures good(a)
  {
    if IsFor(e, s.key) {
      if Polls(e.payload.event) {
        var open := RoundOpens(s, e.payload.event);
        RoundLasts(Emptied(open), user, a, prog, first, open.rt.readyQueue, good);
      } else if CancelsLive(s, e.payload.event) {
        CodeLasts(prog.drop(user, s, e.payload.event.task), [], prog.budget, a, first, good);
      }
    } else if Starts(s.k, e) {
      CodeLasts(prog.foreign(user, s, e), [], prog.budget, a, first, good);
    }
  }

  lemma {:induction false} EntryLock<C, A(!new), B(!new)>(
      s: Sys, e: Kernel.Entry<Message>, user: C, a: A, b: B, prog: Program<C>, first: Oracle<A>, second: Oracle<B>,
      good: A -> bool, sync: (A, B) -> bool)
    requires Lasting(first, good) && Tracks(first, second, good, sync) && sync(a, b) && ReadyOk(s.rt)
    requires good(EntryClosed(s, e, user, a, prog, first).2)
    ensures Together(EntryClosed(s, e, user, a, prog, first), EntryClosed(s, e, user, b, prog, second), sync)
  {
    if IsFor(e, s.key) {
      if Polls(e.payload.event) {
        var open := RoundOpens(s, e.payload.event);
        RoundOpensReady(s, e.payload.event);
        RoundLock(Emptied(open), user, a, b, prog, open.rt.readyQueue, first, second, good, sync);
      } else if CancelsLive(s, e.payload.event) {
        CodeLock(prog.drop(user, s, e.payload.event.task), [], prog.budget, a, b, first, second, good, sync);
      }
    } else if Starts(s.k, e) {
      CodeLock(prog.foreign(user, s, e), [], prog.budget, a, b, first, second, good, sync);
    }
  }

  /** The oracle after the tie-break of a step. */
  lemma {:induction false} StepLasts<C, A(!new)>(w: World<C>, a: A, prog: Program<C>, first: Oracle<A>, good: A -> bool)
    requires Lasting(first, good) && good(ClosedLoop.Step(w, a, prog, first).1)
    ensures good(a) && (Running(w.sys) ==> good(PickClosed(w.sys, a, first).0))
  {
    var s := w.sys;
    if Running(s) {
      var (a1, pick) := PickClosed(s, a, first);
      var e := Kernel.Chosen(s.k, pick);
      EntryLasts(s.(k := Kernel.Popped(s.k, e)), e, w.user, a1, prog, first, good);
      var q := AtFrontier(Kernel.Top(Kernel.Live(s.k)).time, DescribeAll(Kernel.Sorted(Kernel.Frontier(s.k))));
      assert good(first(a, q).0) ==> good(a);
    }
  }

  lemma {:induction false} PickLock<A(!new), B(!new)>(
      s: Sys, a: A, b: B, first: Oracle<A>, second: Oracle<B>, good: A -> bool, sync: (A, B) -> bool)
    requires Tracks(first, second, good, sync) && sync(a, b) && QueueOk(s.k) && Running(s)
    requires good(PickClosed(s, a, first).0)
    ensures sync(PickClosed(s, a, first).0, PickClosed(s, b, second).0)
    ensures Kernel.Chosen(s.k, PickClosed(s, a, first).1) == Kernel.Chosen(s.k, PickClosed(s, b, second).1)
  {
    var frontier := DescribeAll(Kernel.Sorted(Kernel.Frontier(s.k)));
    if |frontier| > 1 {
      var q := AtFrontier(Kernel.Top(Kernel.Live(s.k)).time, frontier);
      SortedDistinct(Kernel.Frontier(s.k));
      assert Proper(q) && good(first(a, q).0);
    }
  }

  lemma {:induction false} StepLock<C, A(!new), B(!new)>(
      w: World<C>, a: A, b: B, prog: Program<C>, first: Oracle<A>, second: Oracle<B>, good: A -> bool,
      sync: (A, B) -> bool)
    requires Lasting(first, good) && Tracks(first, second, good, sync) && sync(a, b) && Sound(w)
    requires good(ClosedLoop.Step(w, a, prog, first).1)
    ensures var (wa, a') := ClosedLoop.Step(w, a, prog, first); var (wb, b') := ClosedLoop.Step(w, b, prog, second);
      wa == wb && sync(a', b')
  {
    var s := w.sys;
    if Running(s) {
      StepLasts(w, a, prog, first, good);
      PickLock(s, a, b, first, second, good, sync);
      var (a1, pick) := PickClosed(s, a, first);
      var b1 := PickClosed(s, b, second).0;
      var e := Kernel.Chosen(s.k, pick);
      EntryLock(s.(k := Kernel.Popped(s.k, e)), e, w.user, a1, b1, prog, first, second, good, sync);
    }
  }

  lemma {:induction false} DriveLasts<C, A(!new)>(
      w: World<C>, a: A, prog: Program<C>, first: Oracle<A>, good: A -> bool)
    requires Lasting(first, good) && good(DriveAndStep(w, a, prog, first).1)
    ensures good(a) && good(Driven(w, a, prog, first).1)
  {
    var (w', a') := Driven(w, a, prog, first);
    StepLasts(w', a', prog, first, good);
    CodeLasts(prog.drive(w.user, w.sys), [], prog.budget, a, first, good);
  }

  lemma {:induction false} DriveLock<C, A(!new), B(!new)>(
      w: World<C>, a: A, b: B, prog: Program<C>, first: Oracle<A>, second: Oracle<B>, good: A -> bool,
      sync: (A, B) -> bool)
    requires Lasting(first, good) && Tracks(first, second, good, sync) && sync(a, b) && Sound(w)
    requires good(DriveAndStep(w, a, prog, first).1)
    ensures var (wa, a') := DriveAndStep(w, a, prog, first);
            var (wb, b') := DriveAndStep(w, b, prog, second);
            wa == wb && sync(a', b') && Sound(wa)
  {
    DriveLasts(w, a, prog, first, good);
    CodeLock(prog.drive(w.user, w.sys), [], prog.budget, a, b, first, second, good, sync);
    DrivenSound(w, a, prog, first);
    var (w', a1) := Driven(w, a, prog, first);
    var b1 := Driven(w, b, prog, second).1;
    StepLock(w', a1, b1, prog, first, second, good, sync);
    StepSound(w', a1, prog, first);
  }

  lemma {:induction false} RunLasts<C, A(!new)>(
      w: World<C>, a: A, prog: Program<C>, first: Oracle<A>, n: nat, good: A -> bool)
    requires Lasting(first, good) && good(ClosedLoop.Run(w, a, prog, first, n).1)
    ensures good(a)
    decreases n
  {
    if n > 0 {
      var (w', a') := DriveAndStep(w, a, prog, first);
      RunNext(w, a, prog, first, n, w', a');
      RunLasts(w', a', prog, first, n - 1, good);
      DriveLasts(w, a, prog, first, good);
    }
  }

  /**
   * For every deterministic program and any two oracles: as long as the first stays good and the
   * second tracks it, both drive the simulation through the same states, step by step.
   */
  lemma {:induction false} RunLock<C, A(!new), B(!new)>(
      w: World<C>, a: A, b: B, prog: Program<C>, first: Oracle<A>, second: Oracle<B>, n: nat, good: A -> bool,
      sync: (A, B) -> bool)
    requires Lasting(first, good) && Tracks(first, second, good, sync) && sync(a, b) && Sound(w)
    requires good(ClosedLoop.Run(w, a, prog, first, n).1)
    ensures var (wa, a') := ClosedLoop.Run(w, a, prog, first, n); var (wb, b') := ClosedLoop.Run(w, b, prog, second, n);
      wa == wb && sync(a', b')
    decreases n
  {
    if n > 0 {
      var (w', a1) := DriveAndStep(w, a, prog, first);
      var (v', b1) := DriveAndStep(w, b, prog, second);
      RunNext(w, a, prog, first, n, w', a1);
      RunNext(w, b, prog, second, n, v', b1);
      RunLasts(w', a1, prog, first, n - 1, good);
      DriveLock(w, a, b, prog, first, second, good, sync);
      RunLock(w', a1, b1, prog, first, second, n - 1, good, sync);
    }
  }
}
