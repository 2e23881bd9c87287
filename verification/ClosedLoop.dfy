/**
 * Whole simulations with deterministic components: everything left open (tie-breaks, ready-task
 * order, random draws) is asked of an oracle, one query at a time.
 */
module ClosedLoop {
  import opened SimTime
  import opened Vectors
  import opened Scheduling
  import opened KernelInvariants
  import R = Runtime
  import opened Runtime
  import opened RuntimePolling
  import opened RuntimeSimulation
  import Kernel

  datatype Query =
    | AtFrontier(time: Time, frontier: seq<FrontierEvent>)
    | AtReady(time: Time, ready: seq<TaskId>)
    | AtDraw(site: nat, rate: nat)

  /** Answers queries one by one, from a state of its own. */
  type Oracle<!O> = (O, Query) -> (O, nat)

  /** Given the draws it got so far, a piece of code asks for another, or is done: its new user state and its acts. */
  datatype Reply<C> =
    | Sample(site: nat, rate: nat)
    | Done(user: C, acts: seq<Act>, ok: bool, output: Kernel.Output)

  type Code<!C> = seq<nat> -> Reply<C>

  /**
   * Deterministic user code, as functions of the user state and everything visible in the
   * simulation: what foreign components and tasks do, polls, the destructors of a cancelled future,
   * and what the driver does before each step. One piece of code takes at most `budget` draws.
   */
  datatype Program<!C> = Program(
    budget: nat,
    foreign: (C, Sys, Kernel.Entry<Message>) -> Code<C>,
    poll: (C, Sys, TaskId) -> Code<C>,
    drop: (C, Sys, TaskId) -> Code<C>,
    drive: (C, Sys) -> Code<C>)

  datatype World<C> = World(sys: Sys, user: C)

  // ----- one closed step -----

  function RunCode<C, O>(code: Code<C>, got: seq<nat>, budget: nat, o: O, oracle: Oracle<O>): (Reply<C>, O)
    decreases budget
  {
    var reply := code(got);
    if reply.Done? || budget == 0 then (reply, o)
    else
      var (o', v) := oracle(o, AtDraw(reply.site, reply.rate));
      RunCode(code, got + [v], budget - 1, o', oracle)
  }

  /** The query that the code makes when it has got the given draws. */
  function Asked<C>(code: Code<C>, got: seq<nat>): Query {
    var reply := code(got);
    if reply.Sample? then AtDraw(reply.site, reply.rate) else AtDraw(0, 0)
  }

  /** The oracle after answering the code's first queries, of which it gave the answers `got`. */
  function AfterDraws<C, O>(code: Code<C>, got: seq<nat>, o: O, oracle: Oracle<O>): O {
    if got == [] then o
    else
      var before := got[..|got| - 1];
      oracle(AfterDraws(code, before, o, oracle), Asked(code, before)).0
  }

  /** The draws are the oracle's answers to the code's own queries, in order. */
  ghost predicate DrawnInOrder<C, O>(code: Code<C>, got: seq<nat>, o: O, oracle: Oracle<O>) {
    forall i :: 0 <= i < |got| ==>
      code(got[..i]).Sample? && got[i] == oracle(AfterDraws(code, got[..i], o, oracle), Asked(code, got[..i])).1
  }

  lemma {:induction false} CodeDrawsOn<C, O>(
      code: Code<C>, got: seq<nat>, budget: nat, now: O, start: O, oracle: Oracle<O>)
    returns (all: seq<nat>)
    requires DrawnInOrder(code, got, start, oracle) && now == AfterDraws(code, got, start, oracle)
    ensures |got| <= |all| <= |got| + budget && DrawnInOrder(code, all, start, oracle)
    ensures RunCode(code, got, budget, now, oracle) == (code(all), AfterDraws(code, all, start, oracle))
    ensures code(all).Done? || |all| == |got| + budget
    decreases budget
  {
    if code(got).Done? || budget == 0 {
      all := got;
    } else {
      var (o', v) := oracle(now, Asked(code, got));
      var more := got + [v];
      assert more[..|got|] == got;
      assert forall i :: 0 <= i < |got| ==> more[..i] == got[..i];
      all := CodeDrawsOn(code, more, budget - 1, o', start, oracle);
    }
  }

  /**
   * A piece of code ends with the reply to all the draws it asked for: each is the oracle's answer to
   * its own query, in order, and it asks until it is done or has used its budget.
   */
  lemma {:induction false} CodeSeesAnswers<C, O>(code: Code<C>, budget: nat, o: O, oracle: Oracle<O>)
    returns (all: seq<nat>)
    ensures |all| <= budget && DrawnInOrder(code, all, o, oracle)
    ensures RunCode(code, [], budget, o, oracle) == (code(all), AfterDraws(code, all, o, oracle))
    ensures code(all).Done? || |all| == budget
  {
    all := CodeDrawsOn(code, [], budget, o, o, oracle);
  }

  /** Code that runs out of its budget has no effect. */
  function Result<C>(user: C, reply: Reply<C>): (r: Reply<C>)
    ensures r.Done?
  {
    if reply.Done? then reply else Done(user, [], false, Kernel.Unit)
  }

  function PollsAs<C>(reply: Reply<C>): Futures
    requires reply.Done?
  {
    (id: TaskId) => PollWork(reply.ok, reply.acts)
  }

  function Marked(s: Sys, id: TaskId): Sys {
    s.(rt := s.rt.(tasks := s.rt.tasks[id := false]))
  }

  /** One poll of a round: the oracle picks a task, and its future runs if the task is still there. */
  function RoundOne<C, O>(
      s: Sys, user: C, o: O, prog: Program<C>, oracle: Oracle<O>, left: seq<TaskId>): (Sys, C, O, nat)
    requires left != []
  {
    var (o1, pick) := oracle(o, AtReady(s.k.clock, left));
    var id := left[Clamp(pick, |left|)];
    if id !in s.rt.tasks then (s, user, o1, pick)
    else
      var (reply, o2) := RunCode(prog.poll(user, Marked(s, id), id), [], prog.budget, o1, oracle);
      var done := Result(user, reply);
      (PollOne(s, id, PollsAs(done)), done.user, o2, pick)
  }

  /** Polls a set of tasks; user code may share state across polls. */
  function PollRound<C, O>(s: Sys, user: C, o: O, prog: Program<C>, oracle: Oracle<O>, left: seq<TaskId>): (Sys, C, O)
    decreases |left|
  {
    if left == [] then (s, user, o)
    else
      var (s1, user1, o1, pick) := RoundOne(s, user, o, prog, oracle, left);
      PollRound(s1, user1, o1, prog, oracle, SwapRemove(left, Clamp(pick, |left|)))
  }

  function NoPolls(): Futures {
    (id: TaskId) => PollWork(false, [])
  }

  ghost function HandleClosed<C, O>(
      s: Sys, e: RuntimeEvent, user: C, o: O, prog: Program<C>, oracle: Oracle<O>): (Sys, C, O)
  {
    if Polls(e) then
      var open := RoundOpens(s, e);
      PollRound(Emptied(open), user, o, prog, oracle, open.rt.readyQueue)
    else if CancelsLive(s, e) then
      var (reply, o') := RunCode(prog.drop(user, s, e.task), [], prog.budget, o, oracle);
      var done := Result(user, reply);
      (Handled(s, e, 0, AnswerFrom(Listed([])), PollsAs(done)).0, done.user, o')
    else
      (Handled(s, e, 0, AnswerFrom(Listed([])), NoPolls()).0, user, o)
  }

  /** The event drops a future. */
  predicate CancelsLive(s: Sys, e: RuntimeEvent) {
    e.Cancel? && e.task in s.rt.tasks
  }

  ghost function EventClosed<C, O>(
      s: Sys, e: RuntimeEvent, user: C, o: O, prog: Program<C>, oracle: Oracle<O>): (Sys, C, O)
  {
    var (r, user', o') := HandleClosed(s, e, user, o, prog, oracle);
    (if r.rt.readyQueue == [] then r else r.(k := Kernel.PushComponent(r.k, 0, s.key, ToRuntime(Poll))), user', o')
  }

  function LabelOf<C>(pick: nat, done: Reply<C>): R.Label
    requires done.Done?
  {
    R.Label(pick, done.acts, done.ok, done.output, Listed([]), NoPolls())
  }

  ghost function EntryClosed<C, O>(
      s: Sys, e: Kernel.Entry<Message>, user: C, o: O, prog: Program<C>, oracle: Oracle<O>): (Sys, C, O)
  {
    if IsFor(e, s.key) then EventClosed(s, e.payload.event, user, o, prog, oracle)
    else if !Starts(s.k, e) then (ProcessForeign(s, e, LabelOf(0, Result(user, Sample(0, 0)))), user, o)
    else
      var (reply, o') := RunCode(prog.foreign(user, s, e), [], prog.budget, o, oracle);
      var done := Result(user, reply);
      (ProcessForeign(s, e, LabelOf(0, done)), done.user, o')
  }

  /** The tie-break: the oracle is asked when there is a choice. */
  ghost function PickClosed<O>(s: Sys, o: O, oracle: Oracle<O>): (O, nat)
    requires Running(s)
  {
    var frontier := Kernel.Sorted(Kernel.Frontier(s.k));
    if |frontier| > 1 then oracle(o, AtFrontier(Kernel.Top(Kernel.Live(s.k)).time, DescribeAll(frontier))) else (o, 0)
  }

  ghost function Step<C, O>(w: World<C>, o: O, prog: Program<C>, oracle: Oracle<O>): (World<C>, O) {
    var s := w.sys;
    if !Running(s) then (w.(sys := s.(k := Kernel.Sweep(s.k, MAX_NANOS))), o)
    else
      var (o1, pick) := PickClosed(s, o, oracle);
      var e := Kernel.Chosen(s.k, pick);
      var (r, user, o2) := EntryClosed(s.(k := Kernel.Popped(s.k, e)), e, w.user, o1, prog, oracle);
      (World(r.(k := Kernel.Drain(r.k)), user), o2)
  }

  /** What the driver does before a step. */
  function Driven<C, O>(w: World<C>, o: O, prog: Program<C>, oracle: Oracle<O>): (World<C>, O) {
    var (reply, o') := RunCode(prog.drive(w.user, w.sys), [], prog.budget, o, oracle);
    var done := Result(w.user, reply);
    (World(DriveAll(w.sys, done.acts), done.user), o')
  }

  ghost function DriveAndStep<C, O>(w: World<C>, o: O, prog: Program<C>, oracle: Oracle<O>): (World<C>, O) {
    var (w', o') := Driven(w, o, prog, oracle);
    Step(w', o', prog, oracle)
  }

  ghost function Iterate<X>(f: X -> X, x: X, n: nat): X
    decreases n
  {
    if n == 0 then x else Iterate(f, f(x), n - 1)
  }

  lemma {:induction false} IterateSplit<X>(f: X -> X, x: X, k: nat, m: nat)
    ensures Iterate(f, x, k + m) == Iterate(f, Iterate(f, x, k), m)
    decreases k
  {
    if k > 0 {
      IterateSplit(f, f(x), k - 1, m);
    }
  }

  ghost function Stepper<C, O>(prog: Program<C>, oracle: Oracle<O>): ((World<C>, O)) -> (World<C>, O) {
    (x: (World<C>, O)) => DriveAndStep(x.0, x.1, prog, oracle)
  }

  /** n steps, each after what the driver does before it. */
  ghost function Run<C, O>(w: World<C>, o: O, prog: Program<C>, oracle: Oracle<O>, n: nat): (World<C>, O) {
    Iterate(Stepper(prog, oracle), (w, o), n)
  }

  lemma {:induction false} RunNext<C, O>(
      w: World<C>, o: O, prog: Program<C>, oracle: Oracle<O>, n: nat, w1: World<C>, o1: O)
    requires n > 0 && (w1, o1) == DriveAndStep(w, o, prog, oracle)
    ensures Run(w, o, prog, oracle, n) == Run(w1, o1, prog, oracle, n - 1)
  {}

  lemma {:induction false} RunSplit<C, O>(w: World<C>, o: O, prog: Program<C>, oracle: Oracle<O>, k: nat, m: nat)
    ensures var (w', o') := Run(w, o, prog, oracle, k);
            Run(w, o, prog, oracle, k + m) == Run(w', o', prog, oracle, m)
  {
    IterateSplit(Stepper(prog, oracle), (w, o), k, m);
  }

  // ----- closed steps are steps -----

  lemma {:induction false} PollAllCongruent<S>(
      s: Sys, ps: S, answer: ReadyAnswer<S>, left: seq<TaskId>, polls: Futures, others: Futures)
    requires forall id <- left :: polls(id) == others(id)
    ensures PollAll(s, ps, answer, left, polls) == PollAll(s, ps, answer, left, others)
    decreases |left|
  {
    if left != [] {
      var (ps', pick) := answer(ps, s.k.clock, left);
      var i := Clamp(pick, |left|);
      assert left[i] in left;
      var rest := SwapRemove(left, i);
      forall id <- rest ensures id in left {
        var j :| 0 <= j < |rest| && rest[j] == id;
        assert id == left[if j == i then |left| - 1 else j];
      }
      PollAllCongruent(PollOne(s, left[i], polls), ps', answer, rest, polls, others);
    }
  }

  function Also(polls: Futures, id: TaskId, w: PollWork): Futures {
    (x: TaskId) => if x == id then w else polls(x)
  }

  ghost function Listing(s: Sys, n: nat, picks: seq<nat>, left: seq<TaskId>, polls: Futures): Sys {
    PollAll(s, n, AnswerFrom(Listed(picks)), left, polls).0
  }

  lemma {:induction false} ListingStep(s: Sys, n: nat, picks: seq<nat>, left: seq<TaskId>, polls: Futures)
    requires left != [] && n < |picks|
    ensures var i := Clamp(picks[n], |left|);
      Listing(s, n, picks, left, polls) == Listing(PollOne(s, left[i], polls), n + 1, picks, SwapRemove(left, i), polls)
  {}

  lemma {:induction false} PrefixAt(before: seq<nat>, pick: nat, picks: seq<nat>)
    requires before + [pick] <= picks
    ensures before <= picks && |before| < |picks| && picks[|before|] == pick
  {
    assert picks[|before|] == (before + [pick])[|before|];
  }

  /** What one poll did is a poll of the state machine, for some work. */
  lemma {:induction false} RoundOneIsPollOne<C, O>(
      s: Sys, user: C, o: O, prog: Program<C>, oracle: Oracle<O>, left: seq<TaskId>)
    returns (w: PollWork)
    requires left != []
    ensures var (s1, _, _, pick) := RoundOne(s, user, o, prog, oracle, left); var id := left[Clamp(pick, |left|)];
      forall polls: Futures :: polls(id) == w ==> PollOne(s, id, polls) == s1
  {
    var (o1, pick) := oracle(o, AtReady(s.k.clock, left));
    var id := left[Clamp(pick, |left|)];
    w := PollWork(false, []);
    if id in s.rt.tasks {
      var done := Result(user, RunCode(prog.poll(user, Marked(s, id), id), [], prog.budget, o1, oracle).0);
      w := PollWork(done.ok, done.acts);
    }
  }

  /** A threaded round is a round of the state machine, for some answers and some polls. */
  lemma {:induction false} RoundIsPollAll<C, O>(
      s: Sys, user: C, o: O, prog: Program<C>, oracle: Oracle<O>, left: seq<TaskId>, before: seq<nat>)
    returns (picks: seq<nat>, polls: Futures)
    requires Distinct(left)
    ensures before <= picks
    ensures PollRound(s, user, o, prog, oracle, left).0 == Listing(s, |before|, picks, left, polls)
    decreases |left|
  {
    if left == [] {
      picks, polls := before, NoPolls();
    } else {
      var (s1, user1, o1, pick) := RoundOne(s, user, o, prog, oracle, left);
      var i := Clamp(pick, |left|);
      var rest := SwapRemove(left, i);
      SwapRemoveDistinct(left, i);
      var w := RoundOneIsPollOne(s, user, o, prog, oracle, left);
      var later;
      picks, later := RoundIsPollAll(s1, user1, o1, prog, oracle, rest, before + [pick]);
      polls := Also(later, left[i], w);
      RoundJoins(s, s1, picks, left, later, polls, before, pick);
    }
  }

  lemma {:induction false} RoundJoins(
      s: Sys, s1: Sys, picks: seq<nat>, left: seq<TaskId>, later: Futures, polls: Futures, before: seq<nat>, pick: nat)
    requires left != [] && before + [pick] <= picks && PollOne(s, left[Clamp(pick, |left|)], polls) == s1
    requires forall id <- SwapRemove(left, Clamp(pick, |left|)) :: later(id) == polls(id)
    ensures before <= picks
    ensures Listing(s, |before|, picks, left, polls)
            == Listing(s1, |before + [pick]|, picks, SwapRemove(left, Clamp(pick, |left|)), later)
  {
    PrefixAt(before, pick, picks);
    ListingStep(s, |before|, picks, left, polls);
    PollAllCongruent<nat>(s1, |before| + 1, AnswerFrom(Listed(picks)), SwapRemove(left, Clamp(pick, |left|)), later,
      polls);
  }

  lemma {:induction false} EventIsProcessEvent<C, O>(
      s: Sys, e: RuntimeEvent, user: C, o: O, prog: Program<C>, oracle: Oracle<O>)
    returns (picks: seq<nat>, polls: Futures)
    requires ReadyOk(s.rt)
    ensures EventClosed(s, e, user, o, prog, oracle).0 == R.ProcessEvent(s, e, 0, AnswerFrom(Listed(picks)), polls).0
  {
    if Polls(e) {
      var open := RoundOpens(s, e);
      RoundOpensReady(s, e);
      picks, polls := RoundIsPollAll(Emptied(open), user, o, prog, oracle, open.rt.readyQueue, []);
      HandledFromOpen(s, e, 0, AnswerFrom(Listed(picks)), polls);
    } else if CancelsLive(s, e) {
      picks, polls := [], PollsAs(Result(user, RunCode(prog.drop(user, s, e.task), [], prog.budget, o, oracle).0));
    } else {
      picks, polls := [], NoPolls();
    }
  }

  /** What holds in every reachable state: the ready queue is sound, and no two entries share an event id. */
  ghost predicate Sound<C>(w: World<C>) {
    ReadyOk(w.sys.rt) && QueueOk(w.sys.k)
  }

  /** A closed step is a step of the runtime state machine, so every result about its runs applies. */
  lemma {:induction false} ClosedStepIsStep<C, O>(w: World<C>, o: O, prog: Program<C>, oracle: Oracle<O>)
    returns (l: R.Label)
    requires ReadyOk(w.sys.rt)
    ensures Step(w, o, prog, oracle).0.sys == R.Step(w.sys, l)
  {
    var s := w.sys;
    l := LabelOf(0, Result(w.user, Sample(0, 0)));
    if Running(s) {
      var (o1, pick) := PickClosed(s, o, oracle);
      var e := Kernel.Chosen(s.k, pick);
      var p := s.(k := Kernel.Popped(s.k, e));
      if IsFor(e, s.key) {
        var picks, polls := EventIsProcessEvent(p, e.payload.event, w.user, o1, prog, oracle);
        l := R.Label(pick, [], true, Kernel.Unit, Listed(picks), polls);
      } else if Starts(p.k, e) {
        l := LabelOf(pick, Result(w.user, RunCode(prog.foreign(w.user, p, e), [], prog.budget, o1, oracle).0));
        assert ForeignWork(s.key, l) == ForeignWork(s.key, l.(pick := 0));
      } else {
        l := l.(pick := pick);
        assert ForeignWork(s.key, l) == ForeignWork(s.key, l.(pick := 0));
      }
    }
  }

  /** So a driven step is two moves of the runtime state machine. */
  lemma {:induction false} DriveAndStepIsRun<C, O>(w: World<C>, o: O, prog: Program<C>, oracle: Oracle<O>)
    returns (ms: seq<R.Move>)
    requires ReadyOk(w.sys.rt)
    ensures DriveAndStep(w, o, prog, oracle).0.sys == R.Run(w.sys, ms)
  {
    var (w', o') := Driven(w, o, prog, oracle);
    var acts := Result(w.user, RunCode(prog.drive(w.user, w.sys), [], prog.budget, o, oracle).0).acts;
    DriveReady(w.sys, acts);
    var l := ClosedStepIsStep(w', o', prog, oracle);
    ms := [R.Drive(acts), R.Turn(l)];
    assert ms[1..] == [R.Turn(l)] && ms[1..][1..] == [];
    assert R.Run(w'.sys, [R.Turn(l)]) == R.Step(w'.sys, l);
  }
}
