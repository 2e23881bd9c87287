/** Scripts built from a trace reproduce the run they were extracted from, whatever the base policy. */
module ScriptReplay {
  import opened SimTime
  import opened Options
  import opened Vectors
  import opened Scheduling
  import opened Runtime
  import opened Traces
  import opened Decisions
  import opened FrontierPolicies
  import opened ReadyPolicies
  import opened SharedReplayRng
  import opened ClosedLoop
  import opened Lockstep
  import opened RecordReplay

  // ----- extraction, one event at a time -----

  function Frontiers(t: seq<TraceEvent>): nat { |SchedulerDecisions(t)| }
  function Readies(t: seq<TraceEvent>): nat { |ReadyDecisions(t)| }

  /** Every recorded decision has its chosen id. */
  predicate Extractable(t: seq<TraceEvent>) {
    forall e <- t :: IsDecision(e) ==> Observe(e, 0, 0).Some?
  }

  /** Extraction panics exactly if some decision has no chosen id, whatever ordinals it starts from. */
  lemma {:induction false} ExtractableExtracts(t: seq<TraceEvent>, f: nat, r: nat)
    ensures ExtractFrom(t, f, r).Some? <==> Extractable(t)
    decreases |t|
  {
    if t != [] {
      var rest := t[1..];
      assert t[0] in t && forall e :: e in t <==> e == t[0] || e in rest;
      assert Observe(t[0], f, r).Some? <==> Observe(t[0], 0, 0).Some?;
      ExtractableExtracts(rest, f + One(t[0].Scheduled?), r + One(t[0].Readied?));
    }
  }

  lemma {:induction false} ExtractableParts(a: seq<TraceEvent>, b: seq<TraceEvent>)
    requires Extractable(a + b)
    ensures Extractable(a) && Extractable(b)
  {
    assert forall e <- a :: e in a + b;
    assert forall e <- b :: e in a + b;
  }

  /** Extraction goes through a trace from left to right; `fe` and `re` are the ordinals reached after `a`. */
  lemma {:induction false} ExtractConcat(a: seq<TraceEvent>, b: seq<TraceEvent>, f: nat, r: nat, fe: nat, re: nat)
    requires ExtractFrom(a, f, r).Some? && fe == f + Frontiers(a) && re == r + Readies(a)
    ensures ExtractFrom(a + b, f, r) == Append(ExtractFrom(a, f, r).value, ExtractFrom(b, fe, re))
    decreases |a|
  {
    if a == [] {
      ExtractConcatNone(a, b, f, r);
    } else {
      CountHead(a);
      ExtractHead(a, f, r);
      ExtractConcat(a[1..], b, f + One(a[0].Scheduled?), r + One(a[0].Readied?), fe, re);
      ExtractConcatStep(a, b, f, r, ExtractFrom(b, fe, re));
    }
  }

  lemma {:induction false} ExtractConcatNone(a: seq<TraceEvent>, b: seq<TraceEvent>, f: nat, r: nat)
    requires a == []
    ensures Frontiers(a) == 0 && Readies(a) == 0
    ensures ExtractFrom(a, f, r) == Some([]) && ExtractFrom(a + b, f, r) == Append([], ExtractFrom(b, f, r))
  {
    assert a + b == b;
    AppendNothing(ExtractFrom(b, f, r));
  }

  lemma {:induction false} ExtractHead(a: seq<TraceEvent>, f: nat, r: nat)
    requires a != [] && ExtractFrom(a, f, r).Some?
    ensures ExtractFrom(a[1..], f + One(a[0].Scheduled?), r + One(a[0].Readied?)).Some?
    ensures IsDecision(a[0]) ==> Observe(a[0], f, r).Some?
  {}

  lemma {:induction false} ExtractConcatStep(
      a: seq<TraceEvent>, b: seq<TraceEvent>, f: nat, r: nat, rest: Option<seq<ObservedDecision>>)
    requires a != [] && ExtractFrom(a, f, r).Some? && (IsDecision(a[0]) ==> Observe(a[0], f, r).Some?)
    requires var tail := ExtractFrom(a[1..], f + One(a[0].Scheduled?), r + One(a[0].Readied?));
      tail.Some?
        && ExtractFrom(a[1..] + b, f + One(a[0].Scheduled?), r + One(a[0].Readied?)) == Append(tail.value, rest)
    ensures ExtractFrom(a + b, f, r) == Append(ExtractFrom(a, f, r).value, rest)
  {
    TailOfConcat(a, b);
    if IsDecision(a[0]) {
      AppendCons(Observe(a[0], f, r), ExtractFrom(a[1..], f + One(a[0].Scheduled?), r + One(a[0].Readied?)), rest);
    }
  }

  lemma {:induction false} CountHead(a: seq<TraceEvent>)
    requires a != []
    ensures Frontiers(a) == One(a[0].Scheduled?) + Frontiers(a[1..])
    ensures Readies(a) == One(a[0].Readied?) + Readies(a[1..])
  {}

  lemma {:induction false} AppendCons(
      d: Option<ObservedDecision>, done: Option<seq<ObservedDecision>>, rest: Option<seq<ObservedDecision>>)
    requires d.Some? && done.Some?
    ensures Prepend(d, done).Some? && Append(Prepend(d, done).value, rest) == Prepend(d, Append(done.value, rest))
  {
    if rest.Some? {
      assert ([d.value] + done.value) + rest.value == [d.value] + (done.value + rest.value);
    }
  }

  lemma {:induction false} ExtractSplit(a: seq<TraceEvent>, b: seq<TraceEvent>, f: nat, r: nat)
    requires Extractable(a + b)
    ensures Extractable(a) && Extractable(b)
    ensures ExtractFrom(a + b, f, r).Some? && ExtractFrom(a, f, r).Some?
            && ExtractFrom(b, f + Frontiers(a), r + Readies(a)).Some?
    ensures ExtractFrom(a + b, f, r).value
            == ExtractFrom(a, f, r).value + ExtractFrom(b, f + Frontiers(a), r + Readies(a)).value
  {
    ExtractableParts(a, b);
    ExtractableExtracts(a, f, r);
    ExtractableExtracts(b, f + Frontiers(a), r + Readies(a));
    ExtractConcat(a, b, f, r, f + Frontiers(a), r + Readies(a));
  }

  /** Ordinals only grow: each decision of a kind has its own. */
  lemma {:induction false} OrdinalsGrow(t: seq<TraceEvent>, f: nat, r: nat)
    requires ExtractFrom(t, f, r).Some?
    ensures forall d <- ExtractFrom(t, f, r).value :: d.key.ordinal >= (if d.key.kind.FrontierChoice? then f else r)
    decreases |t|
  {
    if t != [] {
      OrdinalsGrow(t[1..], f + One(t[0].Scheduled?), r + One(t[0].Readied?));
    }
  }

  lemma {:induction false} ExtractOne(e: TraceEvent, f: nat, r: nat)
    ensures !IsDecision(e) ==> ExtractFrom([e], f, r) == Some([])
    ensures IsDecision(e) && Observe(e, f, r).Some? ==> ExtractFrom([e], f, r) == Some([Observe(e, f, r).value])
  {
    assert [e][1..] == [];
    assert ExtractFrom([], f + 1, r) == Some([]) && ExtractFrom([], f, r + 1) == Some([]);
    if IsDecision(e) && Observe(e, f, r).Some? {
      assert [Observe(e, f, r).value] + [] == [Observe(e, f, r).value];
    }
  }

  /** A decision of a trace has its place in what is extracted, and later decisions have other keys. */
  lemma {:induction false} ExtractAround(
      t: seq<TraceEvent>, before: seq<TraceEvent>, e: TraceEvent, d: ObservedDecision)
    returns (earlier: seq<ObservedDecision>, later: seq<ObservedDecision>)
    requires Extractable(t) && before + [e] <= t && IsDecision(e)
    requires Observe(e, Frontiers(before), Readies(before)) == Some(d)
    ensures Extract(t) == Some((earlier + [d]) + later)
    ensures forall x <- later :: Normalized(x.key) != Normalized(d.key)
  {
    var first, rest := before + [e], t[|before| + 1..];
    assert t == first + rest;
    ExtractSplit(first, rest, 0, 0);
    ExtractableParts(before, [e]);
    OneMoreDecision(before, e);
    OrdinalsGrow(rest, Frontiers(first), Readies(first));
    earlier, later := Extract(before).value, ExtractFrom(rest, Frontiers(first), Readies(first)).value;
  }

  lemma {:induction false} FoundBetween(
      earlier: seq<ObservedDecision>, d: ObservedDecision, later: seq<ObservedDecision>)
    requires forall x <- later :: Normalized(x.key) != Normalized(d.key)
    ensures Lookup(FromObserved((earlier + [d]) + later), d.key) == Some(d.chosen)
  {
    var all := (earlier + [d]) + later;
    var i := |earlier|;
    assert all[i] == d;
    forall j | i < j < |all| ensures Normalized(all[j].key) != Normalized(d.key) {
      assert all[j] == later[j - i - 1] && later[j - i - 1] in later;
    }
    ObservedAreFound(all, i);
  }

  /** A script made from a whole trace answers each of its decisions with the recorded choice. */
  lemma {:induction false} ScriptFinds(t: seq<TraceEvent>, before: seq<TraceEvent>, e: TraceEvent)
    requires Extractable(t) && before + [e] <= t && IsDecision(e)
    ensures Extract(t).Some? && Observe(e, Frontiers(before), Readies(before)).Some?
    ensures var d := Observe(e, Frontiers(before), Readies(before)).value;
            Lookup(FromObserved(Extract(t).value), d.key) == Some(d.chosen)
  {
    assert (before + [e])[|before|] == t[|before|] == e;
    assert e in t;
    var d := Observe(e, Frontiers(before), Readies(before)).value;
    var earlier, later := ExtractAround(t, before, e, d);
    FoundBetween(earlier, d, later);
  }

  // ----- exploring with a script -----

  /** Both exploration policies and the draws of a scripted run, with their shared trace. */
  datatype Explorer<I, F> = Explorer(
    inner: I,
    frontierOrdinal: nat,
    readyOrdinal: nat,
    draws: seq<RandomDraw>,
    fallback: F,
    trace: seq<TraceEvent>,
    panicked: bool)

  function AskFrontier<I>(inner: Oracle<I>): FrontierAnswer<I> {
    (i: I, time: Time, frontier: seq<FrontierEvent>) => inner(i, AtFrontier(time, frontier))
  }

  function AskReady<I>(inner: Oracle<I>): ReadyAnswer<I> {
    (i: I, time: Time, ready: seq<TaskId>) => inner(i, AtReady(time, ready))
  }

  function Explored<I, F>(
      script: Script, inner: Oracle<I>, source: Source<F>, x: Explorer<I, F>, q: Query): (Explorer<I, F>, nat)
  {
    match q
    case AtFrontier(time, frontier) =>
      var (e, i) :=
        ExploreChoose(Exploration(x.inner, x.frontierOrdinal, x.trace), AskFrontier(inner), Some(script), time,
          frontier);
      (x.(inner := e.inner, frontierOrdinal := e.ordinal, trace := e.trace), i)
    case AtReady(time, ready) =>
      var (e, i) :=
        ReadyExploreChoose(Exploration(x.inner, x.readyOrdinal, x.trace), AskReady(inner), Some(script), time, ready);
      (x.(inner := e.inner, readyOrdinal := e.ordinal, trace := e.trace), i)
    case AtDraw(site, rate) =>
      var (c, sampled) := NextDraw(Chain(x.draws, x.fallback, x.trace), source, site, rate);
      if sampled.Got? then (x.(draws := c.draws, fallback := c.fallback, trace := c.trace), sampled.value)
      else (x.(draws := c.draws, panicked := true), 0)
  }

  function Exploring<I, F>(script: Script, inner: Oracle<I>, source: Source<F>): Oracle<Explorer<I, F>> {
    (x: Explorer<I, F>, q: Query) => Explored(script, inner, source, x, q)
  }

  function ExplorerOf<I, F>(trace: seq<TraceEvent>, inner: I, fallback: F): Explorer<I, F> {
    Explorer(inner, 0, 0, Draws(trace), fallback, [], false)
  }

  /** The scripted run has recorded the same trace, its ordinals count it, and its draws are the rest. */
  ghost predicate OnScript<I, J, F>(r: Rec<I>, x: Explorer<J, F>, t: seq<TraceEvent>) {
    && r.trace <= t && x.trace == r.trace
    && x.frontierOrdinal == Frontiers(r.trace) && x.readyOrdinal == Readies(r.trace)
    && |Draws(r.trace)| <= |Draws(t)| && x.draws == Draws(t)[|Draws(r.trace)|..]
    && !x.panicked
  }

  /** A forced choice is the index of the recorded id among distinct ids. */
  lemma {:induction false} ForcedIndex(script: Script, key: DecisionKey, ids: seq<nat>, i: nat)
    requires i < |ids| && Distinct(ids) && Lookup(script, key) == Some(ids[i])
    ensures Forced(Some(script), key, ids) == Some(i)
  {
    assert ids[Position(ids, ids[i])] == ids[i];
  }

  lemma {:induction false} FrontierOnScript<J>(
      t: seq<TraceEvent>, before: seq<TraceEvent>, time: Time, frontier: seq<FrontierEvent>, i: nat, j: J,
      answer: FrontierAnswer<J>)
    requires Extractable(t) && i < |frontier| && Distinct(Seqs(frontier))
             && before + [Scheduled(DecisionAt(time, frontier, i))] <= t
    ensures Extract(t).Some?
    ensures ExploreChoose(Exploration(j, Frontiers(before), before), answer, Some(FromObserved(Extract(t).value)), time,
            frontier)
         == (Exploration(j, Frontiers(before) + 1, before + [Scheduled(DecisionAt(time, frontier, i))]), i)
  {
    var e := Scheduled(DecisionAt(time, frontier, i));
    ScriptFinds(t, before, e);
    ForcedIndex(FromObserved(Extract(t).value), NewKey(FrontierChoice, time, Frontiers(before), Seqs(frontier)),
      Seqs(frontier), i);
  }

  lemma {:induction false} ReadyOnScript<J>(
      t: seq<TraceEvent>, before: seq<TraceEvent>, time: Time, ready: seq<TaskId>, i: nat, j: J, answer: ReadyAnswer<J>)
    requires Extractable(t) && i < |ready| && Distinct(ready)
             && before + [Readied(ReadyDecisionAt(time, ready, i))] <= t
    ensures Extract(t).Some?
    ensures ReadyExploreChoose(Exploration(j, Readies(before), before), answer, Some(FromObserved(Extract(t).value)),
            time, ready)
         == (Exploration(j, Readies(before) + 1, before + [Readied(ReadyDecisionAt(time, ready, i))]), i)
  {
    var e := Readied(ReadyDecisionAt(time, ready, i));
    ScriptFinds(t, before, e);
    ForcedIndex(FromObserved(Extract(t).value), NewKey(ReadyChoice, time, Readies(before), ready), ready, i);
  }

  lemma {:induction false} OnScriptKept<I, J, F>(
      inner: Oracle<I>, base: Oracle<J>, source: Source<F>, t: seq<TraceEvent>, r: Rec<I>, x: Explorer<J, F>, q: Query)
    requires Extractable(t) && Proper(q) && OnScript(r, x, t) && Recorded(inner, r, q).0.trace <= t
    ensures Extract(t).Some?
    ensures var script := FromObserved(Extract(t).value);
      && OnScript(Recorded(inner, r, q).0, Explored(script, base, source, x, q).0, t)
      && Same(q, Recorded(inner, r, q).1, Explored(script, base, source, x, q).1)
  {
    ExtractableExtracts(t, 0, 0);
    var pick := inner(r.inner, q).1;
    MiddleOfTrace(t, r.trace, EventOf(q, pick));
    match q
    case AtFrontier(time, frontier) =>
      FrontierOnScript(t, r.trace, time, frontier, Clamp(pick, |frontier|), x.inner, AskFrontier(base));
    case AtReady(time, ready) =>
      ReadyOnScript(t, r.trace, time, ready, Clamp(pick, |ready|), x.inner, AskReady(base));
    case AtDraw(site, rate) =>
      assert Draws(t)[|Draws(r.trace)|..][1..] == Draws(t)[|Draws(r.trace)| + 1..];
  }

  lemma {:induction false} ScriptTracks<I(!new), J(!new), F(!new)>(
      inner: Oracle<I>, base: Oracle<J>, source: Source<F>, t: seq<TraceEvent>)
    requires Extractable(t)
    ensures Extract(t).Some?
    ensures Lasting(Recording(inner), (r: Rec<I>) => r.trace <= t)
    ensures Tracks(Recording(inner), Exploring(FromObserved(Extract(t).value), base, source),
                   (r: Rec<I>) => r.trace <= t, (r: Rec<I>, x: Explorer<J, F>) => OnScript(r, x, t))
  {
    ExtractableExtracts(t, 0, 0);
    var script := FromObserved(Extract(t).value);
    var good := (r: Rec<I>) => r.trace <= t;
    var sync := (r: Rec<I>, x: Explorer<J, F>) => OnScript(r, x, t);
    forall r: Rec<I>, q | good(Recording(inner)(r, q).0) ensures good(r) {
      assert r.trace <= Recorded(inner, r, q).0.trace;
    }
    forall r: Rec<I>, x: Explorer<J, F>, q | Proper(q) && sync(r, x) && good(Recording(inner)(r, q).0)
      ensures sync(Recording(inner)(r, q).0, Exploring(script, base, source)(x, q).0)
      ensures Same(q, Recording(inner)(r, q).1, Exploring(script, base, source)(x, q).1)
    {
      OnScriptKept(inner, base, source, t, r, x, q);
    }
  }

  /** Recording a sound simulation never records a choice from nothing. */
  lemma {:induction false} RecordingIsExtractable<C, I(!new)>(
      w: World<C>, prog: Program<C>, inner: Oracle<I>, i: I, n: nat)
    requires Sound(w)
    ensures Extractable(ClosedLoop.Run(w, Rec(i, []), prog, Recording(inner), n).1.trace)
  {
    var good := (r: Rec<I>) => true;
    var sync := (r: Rec<I>, s: Rec<I>) => r == s && Extractable(r.trace);
    forall r: Rec<I>, s: Rec<I>, q | Proper(q) && sync(r, s)
      ensures sync(Recording(inner)(r, q).0, Recording(inner)(s, q).0)
    {
      var e := EventOf(q, inner(r.inner, q).1);
      assert IsDecision(e) ==> Observe(e, 0, 0).Some?;
    }
    assert Extractable([]) && sync(Rec(i, []), Rec(i, []));
    RunLock(w, Rec(i, []), Rec(i, []), prog, Recording(inner), Recording(inner), n, good, sync);
  }

  lemma {:induction false} StaysOnScript<C, I(!new), J(!new), F(!new)>(
      w: World<C>, prog: Program<C>, inner: Oracle<I>, i: I, n: nat, base: Oracle<J>, j: J, source: Source<F>,
      fallback: F, t: seq<TraceEvent>)
    requires Sound(w) && Extractable(t) && Extract(t).Some?
    requires ClosedLoop.Run(w, Rec(i, []), prog, Recording(inner), n).1.trace <= t
    ensures var (recorded, rec) := ClosedLoop.Run(w, Rec(i, []), prog, Recording(inner), n);
      var (scripted, x) :=
        ClosedLoop.Run(w, ExplorerOf(t, j, fallback), prog, Exploring(FromObserved(Extract(t).value), base, source), n);
      scripted == recorded && OnScript(rec, x, t)
  {
    ScriptTracks(inner, base, source, t);
    var script := FromObserved(Extract(t).value);
    var good := (r: Rec<I>) => r.trace <= t;
    var sync := (r: Rec<I>, x: Explorer<J, F>) => OnScript(r, x, t);
    assert sync(Rec(i, []), ExplorerOf(t, j, fallback));
    RunLock(w, Rec(i, []), ExplorerOf(t, j, fallback), prog, Recording(inner), Exploring(script, base, source), n, good,
      sync);
  }

  /**
   * Script fixed point: record a run, extract its decisions, build a script from them, and run again
   * with the exploration policies over any base policy and the recorded draws: the run goes through
   * the same states and records the same trace, so extraction gives the same decisions again.
   */
  lemma {:induction false} ScriptIsFixedPoint<C, I(!new), J(!new), F(!new)>(
      w: World<C>, prog: Program<C>, inner: Oracle<I>, i: I, n: nat, base: Oracle<J>, j: J, source: Source<F>,
      fallback: F)
    requires Sound(w)
    ensures var (recorded, rec) := ClosedLoop.Run(w, Rec(i, []), prog, Recording(inner), n);
      && Extract(rec.trace).Some?
      && var script := FromObserved(Extract(rec.trace).value);
         var (scripted, x) :=
           ClosedLoop.Run(w, ExplorerOf(rec.trace, j, fallback), prog, Exploring(script, base, source), n);
         scripted == recorded && x.trace == rec.trace && !x.panicked
  {
    var t := ClosedLoop.Run(w, Rec(i, []), prog, Recording(inner), n).1.trace;
    RecordingIsExtractable(w, prog, inner, i, n);
    ExtractableExtracts(t, 0, 0);
    StaysOnScript(w, prog, inner, i, n, base, j, source, fallback, t);
  }

  // ----- choice points in another order -----

  /** The same choice point, with its alternatives listed in any order. */
  ghost predicate Reordered(q: Query, p: Query) {
    match q
    case AtFrontier(time, frontier) => p.AtFrontier? && p.time == time && forall x :: x in Seqs(frontier) <==>
      x in Seqs(p.frontier)
    case AtReady(time, ready) => p.AtReady? && p.time == time && forall x :: x in ready <==> x in p.ready
    case AtDraw(_, _) => false
  }

  function IdAt(q: Query, index: nat): nat
    requires match q case AtFrontier(_, frontier) => index < |frontier| case AtReady(_, ready) => index < |ready
             | case AtDraw(_, _) => true
  {
    match q
    case AtFrontier(_, frontier) => frontier[index].eventId
    case AtReady(_, ready) => ready[index]
    case AtDraw(_, _) => index
  }

  /** Asks an oracle a list of queries. */
  function AskAll<O>(o: O, qs: seq<Query>, oracle: Oracle<O>): (O, seq<nat>)
    decreases |qs|
  {
    if qs == [] then (o, [])
    else
      var (o', x) := oracle(o, qs[0]);
      var (final, rest) := AskAll(o', qs[1..], oracle);
      (final, [x] + rest)
  }

  /** Same decisions so far, though not the same trace: alternatives may have been listed differently. */
  ghost predicate SameDecisions(a: seq<TraceEvent>, b: seq<TraceEvent>) {
    Extractable(a) && Extractable(b) && Frontiers(a) == Frontiers(b) && Readies(a) == Readies(b)
      && Extract(a) == Extract(b)
  }

  lemma {:induction false} ObserveReordered(q: Query, p: Query, i: nat, k: nat, f: nat, r: nat)
    requires Proper(q) && Proper(p) && Reordered(q, p) && i == Answered(q, i) && k == Answered(p, k)
             && IdAt(q, i) == IdAt(p, k)
    ensures Observe(EventOf(q, i), f, r) == Observe(EventOf(p, k), f, r) && Observe(EventOf(q, i), f, r).Some?
  {
    match q
    case AtFrontier(_, frontier) => NormalizeIsCanonical(Seqs(frontier), Seqs(p.frontier));
    case AtReady(_, ready) => NormalizeIsCanonical(ready, p.ready);
  }

  lemma {:induction false} OneMoreDecision(a: seq<TraceEvent>, e: TraceEvent)
    requires Extractable(a) && IsDecision(e) && Observe(e, Frontiers(a), Readies(a)).Some?
    ensures Extractable(a + [e]) && Extract(a).Some?
    ensures Extract(a + [e]) == Some(Extract(a).value + [Observe(e, Frontiers(a), Readies(a)).value])
    ensures Frontiers(a + [e]) == Frontiers(a) + One(e.Scheduled?) && Readies(a + [e]) == Readies(a) + One(e.Readied?)
  {
    assert Extractable(a + [e]);
    ExtractSplit(a, [e], 0, 0);
    ExtractOne(e, Frontiers(a), Readies(a));
    MiddleOfTrace(a + [e], a, e);
  }

  lemma {:induction false} SameDecisionsStep(a: seq<TraceEvent>, b: seq<TraceEvent>, e: TraceEvent, g: TraceEvent)
    requires SameDecisions(a, b) && IsDecision(e) && e.Scheduled? == g.Scheduled? && e.Readied? == g.Readied?
    requires Observe(e, Frontiers(a), Readies(a)) == Observe(g, Frontiers(a), Readies(a))
             && Observe(e, Frontiers(a), Readies(a)).Some?
    ensures SameDecisions(a + [e], b + [g])
  {
    OneMoreDecision(a, e);
    OneMoreDecision(b, g);
  }

  /** The ids a choice is made among. */
  function IdsOf(q: Query): seq<nat>
    requires !q.AtDraw?
  {
    match q
    case AtFrontier(_, frontier) => Seqs(frontier)
    case AtReady(_, ready) => ready
  }

  /** The key of a choice, at the ordinals reached. */
  function KeyOf(q: Query, frontiers: nat, readies: nat): DecisionKey
    requires !q.AtDraw?
  {
    match q
    case AtFrontier(time, frontier) => NewKey(FrontierChoice, time, frontiers, Seqs(frontier))
    case AtReady(time, ready) => NewKey(ReadyChoice, time, readies, ready)
  }

  /** The script forces the recorded id, wherever it now stands. */
  lemma {:induction false} ReorderedForced(t: seq<TraceEvent>, before: seq<TraceEvent>, q: Query, p: Query, i: nat)
    requires Proper(q) && Proper(p) && Reordered(q, p) && i == Answered(q, i)
    requires Extractable(t) && Extract(t).Some? && before + [EventOf(q, i)] <= t
    ensures i < |IdsOf(q)|
    ensures var script := FromObserved(Extract(t).value);
            var forced := Forced(Some(script), KeyOf(p, Frontiers(before), Readies(before)), IdsOf(p));
            forced.Some? && IdsOf(p)[forced.value] == IdsOf(q)[i]
  {
    var script := FromObserved(Extract(t).value);
    ScriptFinds(t, before, EventOf(q, i));
    ForcedAmong(script, KeyOf(q, Frontiers(before), Readies(before)), KeyOf(p, Frontiers(before), Readies(before)),
      IdsOf(q), IdsOf(p), i);
  }

  /** One scripted choice at a reordered choice point picks the recorded id. */
  lemma {:induction false} ReorderedChoice<J, F>(
      t: seq<TraceEvent>, before: seq<TraceEvent>, q: Query, p: Query, i: nat, base: Oracle<J>, source: Source<F>,
      x: Explorer<J, F>)
    requires Proper(q) && Proper(p) && Reordered(q, p) && i == Answered(q, i)
    requires Extractable(t) && Extract(t).Some? && before + [EventOf(q, i)] <= t
    requires x.frontierOrdinal == Frontiers(before) && x.readyOrdinal == Readies(before)
    ensures var (y, k) := Explored(FromObserved(Extract(t).value), base, source, x, p);
            && k == Answered(p, k) && IdAt(p, k) == IdAt(q, i)
            && y.trace == x.trace + [EventOf(p, k)]
            && y.frontierOrdinal == x.frontierOrdinal + (if p.AtFrontier? then 1 else 0)
            && y.readyOrdinal == x.readyOrdinal + (if p.AtReady? then 1 else 0)
  {
    ReorderedForced(t, before, q, p, i);
  }

  /** A key made from the same ids in another order finds the same id, wherever it now stands. */
  lemma {:induction false} ForcedAmong(
      script: Script, key: DecisionKey, other: DecisionKey, ids: seq<nat>, others: seq<nat>, i: nat)
    requires i < |ids| && Lookup(script, key) == Some(ids[i]) && forall x :: x in ids <==> x in others
    requires other == key.(choiceSet := Normalize(others)) && key.choiceSet == Normalize(ids)
    ensures var forced := Forced(Some(script), other, others); forced.Some? && others[forced.value] == ids[i]
  {
    NormalizeIsCanonical(ids, others);
    assert ids[i] in others;
  }

  ghost predicate AllReordered(qs: seq<Query>, ps: seq<Query>) {
    |qs| == |ps| && forall i :: 0 <= i < |qs| ==> Proper(qs[i]) && Proper(ps[i]) && Reordered(qs[i], ps[i])
  }

  /** The same ids were chosen throughout. */
  ghost predicate SameIds(qs: seq<Query>, xs: seq<nat>, ps: seq<Query>, ys: seq<nat>) {
    |xs| == |qs| == |ps| == |ys| &&
    forall i :: 0 <= i < |qs| && Proper(qs[i]) && Proper(ps[i]) ==>
      IdAt(qs[i], Answered(qs[i], xs[i])) == IdAt(ps[i], Answered(ps[i], ys[i]))
  }

  /** Recording a list of choice points: the trace only grows, by one decision each. */
  lemma {:induction false} AskGrows<I>(r: Rec<I>, qs: seq<Query>, inner: Oracle<I>)
    ensures r.trace <= AskAll(r, qs, Recording(inner)).0.trace
    decreases |qs|
  {
    if qs != [] {
      AskGrows(Recorded(inner, r, qs[0]).0, qs[1..], inner);
    }
  }

  /**
   * The script of a trace, tried on the same choice points with their alternatives in any order and
   * under any base policy, chooses the same ids, and the new trace has the same decisions.
   */
  lemma {:induction false} ScriptSurvivesReordering<I, J, F>(
      r: Rec<I>, x: Explorer<J, F>, qs: seq<Query>, ps: seq<Query>, t: seq<TraceEvent>, inner: Oracle<I>,
      base: Oracle<J>, source: Source<F>)
    requires Extractable(t) && Extract(t).Some? && AllReordered(qs, ps)
    requires AskAll(r, qs, Recording(inner)).0.trace <= t && SameDecisions(r.trace, x.trace)
    requires x.frontierOrdinal == Frontiers(r.trace) && x.readyOrdinal == Readies(r.trace)
    ensures var (rec, xs) := AskAll(r, qs, Recording(inner));
      var (explored, ys) := AskAll(x, ps, Exploring(FromObserved(Extract(t).value), base, source));
      SameDecisions(rec.trace, explored.trace) && SameIds(qs, xs, ps, ys)
    decreases |qs|
  {
    if qs != [] {
      var script := FromObserved(Extract(t).value);
      var (r1, i) := Recorded(inner, r, qs[0]);
      var (x1, k) := Explored(script, base, source, x, ps[0]);
      AskGrows(r1, qs[1..], inner);
      ReorderedStep(r, x, qs[0], ps[0], t, inner, base, source);
      assert forall m :: 0 <= m < |qs[1..]| ==> qs[1..][m] == qs[m + 1] && ps[1..][m] == ps[m + 1];
      ScriptSurvivesReordering(r1, x1, qs[1..], ps[1..], t, inner, base, source);
      SameIdsCons(qs, i, AskAll(r1, qs[1..], Recording(inner)).1, ps, k,
        AskAll(x1, ps[1..], Exploring(script, base, source)).1);
    }
  }

  lemma {:induction false} ReorderedStep<I, J, F>(
      r: Rec<I>, x: Explorer<J, F>, q: Query, p: Query, t: seq<TraceEvent>, inner: Oracle<I>, base: Oracle<J>,
      source: Source<F>)
    requires Extractable(t) && Extract(t).Some? && Proper(q) && Proper(p) && Reordered(q, p)
    requires Recorded(inner, r, q).0.trace <= t && SameDecisions(r.trace, x.trace)
    requires x.frontierOrdinal == Frontiers(r.trace) && x.readyOrdinal == Readies(r.trace)
    ensures var (r1, i) := Recorded(inner, r, q);
            var (x1, k) := Explored(FromObserved(Extract(t).value), base, source, x, p);
      && SameDecisions(r1.trace, x1.trace)
      && x1.frontierOrdinal == Frontiers(r1.trace) && x1.readyOrdinal == Readies(r1.trace)
      && i == Answered(q, i) && k == Answered(p, k) && IdAt(q, i) == IdAt(p, k)
  {
    var i := Recorded(inner, r, q).1;
    var raw := inner(r.inner, q).1;
    assert EventOf(q, raw) == EventOf(q, i);
    ReorderedChoice(t, r.trace, q, p, i, base, source, x);
    var k := Explored(FromObserved(Extract(t).value), base, source, x, p).1;
    ObserveReordered(q, p, i, k, Frontiers(r.trace), Readies(r.trace));
    SameDecisionsStep(r.trace, x.trace, EventOf(q, i), EventOf(p, k));
    MiddleOfTrace(r.trace + [EventOf(q, i)], r.trace, EventOf(q, i));
  }

  lemma {:induction false} SameIdsCons(qs: seq<Query>, i: nat, xs: seq<nat>, ps: seq<Query>, k: nat, ys: seq<nat>)
    requires qs != [] && ps != [] && SameIds(qs[1..], xs, ps[1..], ys)
    requires Proper(qs[0]) && Proper(ps[0]) && IdAt(qs[0], Answered(qs[0], i)) == IdAt(ps[0], Answered(ps[0], k))
    ensures SameIds(qs, [i] + xs, ps, [k] + ys)
  {
    forall m | 0 <= m < |qs| && Proper(qs[m]) && Proper(ps[m])
      ensures IdAt(qs[m], Answered(qs[m], ([i] + xs)[m])) == IdAt(ps[m], Answered(ps[m], ([k] + ys)[m]))
    {
      if m > 0 {
        assert qs[m] == qs[1..][m - 1] && ps[m] == ps[1..][m - 1];
      }
    }
  }
}
