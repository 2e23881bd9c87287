/** Recording a run and replaying the trace visits the same states. */
module RecordReplay {
  import opened Options
  import opened Vectors
  import opened Traces
  import opened FrontierPolicies
  import opened ReadyPolicies
  import opened SharedReplayRng
  import opened ClosedLoop
  import opened Lockstep

  // ----- the recording side -----

  /** Any inner policies and generator, and the trace so far. */
  datatype Rec<I> = Rec(inner: I, trace: seq<TraceEvent>)

  function Answered(q: Query, x: nat): nat {
    match q
    case AtFrontier(_, frontier) => Clamp(x, |frontier|)
    case AtReady(_, ready) => Clamp(x, |ready|)
    case AtDraw(_, _) => x
  }

  function EventOf(q: Query, x: nat): TraceEvent {
    match q
    case AtFrontier(time, frontier) => Scheduled(DecisionAt(time, frontier, Answered(q, x)))
    case AtReady(time, ready) => Readied(ReadyDecisionAt(time, ready, Answered(q, x)))
    case AtDraw(site, _) => Drawn(RandomDraw(site, x))
  }

  function Recorded<I>(inner: Oracle<I>, r: Rec<I>, q: Query): (Rec<I>, nat) {
    var (i, x) := inner(r.inner, q);
    (Rec(i, r.trace + [EventOf(q, x)]), Answered(q, x))
  }

  function Recording<I>(inner: Oracle<I>): Oracle<Rec<I>> {
    (r: Rec<I>, q: Query) => Recorded(inner, r, q)
  }

  // ----- the replaying side -----

  datatype Player<F> = Player(frontier: Replay, ready: ReadyReplay, chain: Chain<F>, panicked: bool)

  function PlayerOf<F>(trace: seq<TraceEvent>, fallback: F): Player<F> {
    Player(Replay(SchedulerDecisions(trace), 0, None), ReadyReplayOf(trace), Chain(Draws(trace), fallback, []), false)
  }

  function Played<F>(source: Source<F>, p: Player<F>, q: Query): (Player<F>, nat) {
    match q
    case AtFrontier(time, frontier) =>
      var (r, i) := ReplayChoose(p.frontier, time, frontier);
      (p.(frontier := r), i)
    case AtReady(time, ready) =>
      var (r, i) := ReadyReplayChoose(p.ready, time, ready);
      (p.(ready := r), i)
    case AtDraw(site, rate) =>
      var (c, sampled) := NextDraw(p.chain, source, site, rate);
      if sampled.Got? then (p.(chain := c), sampled.value) else (p.(chain := c, panicked := true), 0)
  }

  function Playing<F>(source: Source<F>): Oracle<Player<F>> {
    (p: Player<F>, q: Query) => Played(source, p, q)
  }

  ghost predicate Clean<F>(p: Player<F>) {
    p.frontier.error.None? && p.ready.error.None? && !p.panicked
  }

  // ----- in step -----

  /** The player of trace t has consumed exactly what the recorder has recorded, without an error. */
  ghost predicate InStep<I, F>(r: Rec<I>, p: Player<F>, t: seq<TraceEvent>) {
    && r.trace <= t
    && p.frontier == Replay(SchedulerDecisions(t), |SchedulerDecisions(r.trace)|, None)
    && p.ready.(warned := false) == ReadyReplayOf(t).(next := |ReadyDecisions(r.trace)|)
    && |Draws(r.trace)| <= |Draws(t)| && p.chain.draws == Draws(t)[|Draws(r.trace)|..]
    && !p.panicked
  }

  /** What a filter of the whole trace says about an event in its middle. */
  lemma {:induction false} MiddleOfTrace(t: seq<TraceEvent>, before: seq<TraceEvent>, e: TraceEvent)
    requires before + [e] <= t
    ensures e.Scheduled? ==> var n := |SchedulerDecisions(before)|;
            n < |SchedulerDecisions(t)| && SchedulerDecisions(t)[n] == e.scheduler
    ensures e.Readied? ==> var n := |ReadyDecisions(before)|; n < |ReadyDecisions(t)| && ReadyDecisions(t)[n] == e.ready
    ensures e.Drawn? ==> var n := |Draws(before)|; n < |Draws(t)| && Draws(t)[n] == e.draw
    ensures |SchedulerDecisions(before + [e])| == |SchedulerDecisions(before)| + (if e.Scheduled? then 1 else 0)
    ensures |ReadyDecisions(before + [e])| == |ReadyDecisions(before)| + (if e.Readied? then 1 else 0)
    ensures |Draws(before + [e])| == |Draws(before)| + (if e.Drawn? then 1 else 0)
  {
    var rest := t[|before| + 1..];
    assert t == before + ([e] + rest);
    FiltersConcat(before, [e] + rest);
    FiltersConcat([e], rest);
    FiltersConcat(before, [e]);
    assert [e][1..] == [];
  }

  lemma {:induction false} InStepKept<I, F>(
      inner: Oracle<I>, source: Source<F>, t: seq<TraceEvent>, r: Rec<I>, p: Player<F>, q: Query)
    requires Proper(q) && InStep(r, p, t) && Recorded(inner, r, q).0.trace <= t
    ensures InStep(Recorded(inner, r, q).0, Played(source, p, q).0, t)
    ensures Same(q, Recorded(inner, r, q).1, Played(source, p, q).1)
  {
    var x := inner(r.inner, q).1;
    MiddleOfTrace(t, r.trace, EventOf(q, x));
    match q
    case AtFrontier(time, frontier) => ReplayRecorded(p.frontier, time, frontier, Clamp(x, |frontier|));
    case AtReady(time, ready) => ReadyReplayRecorded(p.ready, time, ready, Clamp(x, |ready|));
    case AtDraw(site, rate) =>
      assert Draws(t)[|Draws(r.trace)|..][1..] == Draws(t)[|Draws(r.trace)| + 1..];
  }

  lemma {:induction false} ReplayTracks<I(!new), F(!new)>(inner: Oracle<I>, source: Source<F>, t: seq<TraceEvent>)
    ensures Lasting(Recording(inner), (r: Rec<I>) => r.trace <= t)
    ensures Tracks(Recording(inner), Playing(source), (r: Rec<I>) => r.trace <= t,
            (r: Rec<I>, p: Player<F>) => InStep(r, p, t))
  {
    var good := (r: Rec<I>) => r.trace <= t;
    var sync := (r: Rec<I>, p: Player<F>) => InStep(r, p, t);
    forall r: Rec<I>, q | good(Recording(inner)(r, q).0) ensures good(r) {
      assert r.trace <= Recorded(inner, r, q).0.trace;
    }
    forall r: Rec<I>, p: Player<F>, q | Proper(q) && sync(r, p) && good(Recording(inner)(r, q).0)
      ensures sync(Recording(inner)(r, q).0, Playing(source)(p, q).0)
      ensures Same(q, Recording(inner)(r, q).1, Playing(source)(p, q).1)
    {
      InStepKept(inner, source, t, r, p, q);
    }
  }

  lemma {:induction false} ReplayStaysInStep<C, I(!new), F(!new)>(
      w: World<C>, prog: Program<C>, inner: Oracle<I>, i: I, k: nat, source: Source<F>, fallback: F, t: seq<TraceEvent>)
    requires Sound(w) && ClosedLoop.Run(w, Rec(i, []), prog, Recording(inner), k).1.trace <= t
    ensures var (wr, rec) := ClosedLoop.Run(w, Rec(i, []), prog, Recording(inner), k);
      var (wp, player) := ClosedLoop.Run(w, PlayerOf(t, fallback), prog, Playing(source), k);
      wr == wp && InStep(rec, player, t)
  {
    var good := (r: Rec<I>) => r.trace <= t;
    var sync := (r: Rec<I>, p: Player<F>) => InStep(r, p, t);
    ReplayTracks(inner, source, t);
    assert sync(Rec(i, []), PlayerOf(t, fallback));
    RunLock(w, Rec(i, []), PlayerOf(t, fallback), prog, Recording(inner), Playing(source), k, good, sync);
  }

  lemma {:induction false} InStepIsClean<I, F>(r: Rec<I>, p: Player<F>, t: seq<TraceEvent>)
    requires InStep(r, p, t)
    ensures Clean(p)
  {
    assert p.ready.error == p.ready.(warned := false).error;
  }

  /** Earlier traces of a run are prefixes of later ones. */
  lemma {:induction false} TraceGrows<C, I(!new)>(w: World<C>, r: Rec<I>, prog: Program<C>, inner: Oracle<I>, n: nat)
    ensures r.trace <= ClosedLoop.Run(w, r, prog, Recording(inner), n).1.trace
  {
    var t := ClosedLoop.Run(w, r, prog, Recording(inner), n).1.trace;
    ReplayTracks<I, int>(inner, (f: int, rate: nat) => (f, 0), t);
    RunLasts(w, r, prog, Recording(inner), n, (r: Rec<I>) => r.trace <= t);
  }

  /**
   * Record n steps of any deterministic program under any policies and generator; then run it again
   * from the same state with the replay policies and the replayed draws of the trace. After every
   * number k <= n of steps both runs are in the same state, and no replay error or panic occurs.
   */
  lemma {:induction false} RecordThenReplay<C, I(!new), F(!new)>(
      w: World<C>, prog: Program<C>, inner: Oracle<I>, i: I, n: nat, source: Source<F>, fallback: F, k: nat)
    requires Sound(w) && k <= n
    ensures var trace := ClosedLoop.Run(w, Rec(i, []), prog, Recording(inner), n).1.trace;
      var (replayed, player) := ClosedLoop.Run(w, PlayerOf(trace, fallback), prog, Playing(source), k);
      replayed == ClosedLoop.Run(w, Rec(i, []), prog, Recording(inner), k).0 && Clean(player)
  {
    var t := ClosedLoop.Run(w, Rec(i, []), prog, Recording(inner), n).1.trace;
    var (wk, rk) := ClosedLoop.Run(w, Rec(i, []), prog, Recording(inner), k);
    RunSplit(w, Rec(i, []), prog, Recording(inner), k, n - k);
    TraceGrows(wk, rk, prog, inner, n - k);
    ReplayStaysInStep(w, prog, inner, i, k, source, fallback, t);
    InStepIsClean(rk, ClosedLoop.Run(w, PlayerOf(t, fallback), prog, Playing(source), k).1, t);
  }

  /** A complete replay also uses the trace up: every decision and every draw is consumed. */
  lemma {:induction false} ReplayConsumesTrace<C, I(!new), F(!new)>(
      w: World<C>, prog: Program<C>, inner: Oracle<I>, i: I, n: nat, source: Source<F>, fallback: F)
    requires Sound(w)
    ensures var trace := ClosedLoop.Run(w, Rec(i, []), prog, Recording(inner), n).1.trace;
      var player := ClosedLoop.Run(w, PlayerOf(trace, fallback), prog, Playing(source), n).1;
      && player.frontier.next == |SchedulerDecisions(trace)|
      && player.ready.next == |ReadyDecisions(trace)|
      && player.chain.draws == []
  {
    var t := ClosedLoop.Run(w, Rec(i, []), prog, Recording(inner), n).1.trace;
    ReplayStaysInStep(w, prog, inner, i, n, source, fallback, t);
  }
}
