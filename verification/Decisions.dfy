/** Normalised scheduling decisions: the keys scripts are looked up by, and their extraction from traces. */
module Decisions {
  import opened SimTime
  import opened Options
  import opened Traces

  // ----- sort and dedup -----

  predicate Ascending(s: seq<nat>) {
    forall i, j :: 0 <= i < j < |s| ==> s[i] <= s[j]
  }

  predicate StrictlyAscending(s: seq<nat>) {
    forall i, j :: 0 <= i < j < |s| ==> s[i] < s[j]
  }

  lemma {:induction false} HeadIsLeast(s: seq<nat>, y: nat)
    requires Ascending(s) && s != [] && y in s[1..]
    ensures s[0] <= y
  {
    var i :| 0 <= i < |s[1..]| && s[1..][i] == y;
    assert s[i + 1] == y;
  }

  lemma {:induction false} AscendingCons(s: seq<nat>, rest: seq<nat>, x: nat)
    requires Ascending(s) && s != [] && s[0] <= x && Ascending(rest) && forall y :: y in rest <==> y == x || y in s[1..]
    ensures Ascending([s[0]] + rest)
  {
    forall j | 0 <= j < |rest| ensures s[0] <= rest[j] {
      assert rest[j] in rest;
      if rest[j] != x {
        HeadIsLeast(s, rest[j]);
      }
    }
  }

  lemma {:induction false} StrictlyCons(s: seq<nat>, rest: seq<nat>)
    requires Ascending(s) && |s| > 1 && s[0] < s[1] && StrictlyAscending(rest) && forall y :: y in rest <==> y in s[1..]
    ensures StrictlyAscending([s[0]] + rest)
  {
    forall j | 0 <= j < |rest| ensures s[0] < rest[j] {
      assert rest[j] in rest;
      var i :| 0 <= i < |s[1..]| && s[1..][i] == rest[j];
      assert s[i + 1] == rest[j] && s[1] <= s[i + 1];
    }
  }

  function Insert(s: seq<nat>, x: nat): (r: seq<nat>)
    requires Ascending(s)
    ensures Ascending(r) && forall y :: y in r <==> y == x || y in s
  {
    if s == [] then [x]
    else if x <= s[0] then [x] + s
    else
      var rest := Insert(s[1..], x);
      AscendingCons(s, rest, x);
      [s[0]] + rest
  }

  function Sort(s: seq<nat>): (r: seq<nat>)
    ensures Ascending(r) && forall y :: y in r <==> y in s
  {
    if s == [] then [] else Insert(Sort(s[1..]), s[0])
  }

  /** Removes consecutive repetitions. */
  function Dedup(s: seq<nat>): (r: seq<nat>)
    requires Ascending(s)
    ensures StrictlyAscending(r) && (forall y :: y in r <==> y in s)
  {
    if |s| <= 1 then s
    else if s[0] == s[1] then Dedup(s[1..])
    else
      var rest := Dedup(s[1..]);
      StrictlyCons(s, rest);
      [s[0]] + rest
  }

  function Normalize(s: seq<nat>): (r: seq<nat>)
    ensures StrictlyAscending(r) && (forall y :: y in r <==> y in s)
  {
    Dedup(Sort(s))
  }

  /** A strictly ascending list is determined by its elements. */
  lemma {:induction false} AscendingUnique(a: seq<nat>, b: seq<nat>)
    requires StrictlyAscending(a) && StrictlyAscending(b) && forall y :: y in a <==> y in b
    ensures a == b
    decreases |a|
  {
    if a == [] {
      if b != [] {
        HasElement(b);
      }
    } else {
      assert a[0] in a && a[0] in b && b[0] in b && b[0] in a;
      assert a[0] == b[0];
      forall y: nat ensures y in a[1..] <==> y in b[1..] {
        TailOfAscending(a, y);
        TailOfAscending(b, y);
      }
      AscendingUnique(a[1..], b[1..]);
    }
  }

  lemma {:induction false} HasElement(s: seq<nat>)
    requires s != []
    ensures exists y :: y in s
  {
    assert s[0] in s;
  }

  lemma {:induction false} TailOfAscending(a: seq<nat>, y: nat)
    requires StrictlyAscending(a) && a != []
    ensures y in a[1..] <==> y in a && y != a[0]
  {
    if y in a && y != a[0] {
      var i :| 0 <= i < |a| && a[i] == y;
      assert a[1..][i - 1] == y;
    }
  }

  /** Normal forms are canonical: equal exactly when the choice sets are. */
  lemma {:induction false} NormalizeIsCanonical(a: seq<nat>, b: seq<nat>)
    ensures Normalize(a) == Normalize(b) <==> forall y :: y in a <==> y in b
  {
    if forall y :: y in a <==> y in b {
      AscendingUnique(Normalize(a), Normalize(b));
    } else {
      var y: nat :| (y in a) != (y in b);
      assert (y in Normalize(a)) != (y in Normalize(b));
    }
  }

  // ----- keys and observed decisions -----

  datatype DecisionKind = FrontierChoice | ReadyChoice

  datatype DecisionKey = DecisionKey(kind: DecisionKind, time: Time, ordinal: nat, choiceSet: seq<nat>)

  function Normalized(k: DecisionKey): DecisionKey {
    k.(choiceSet := Normalize(k.choiceSet))
  }

  function NewKey(kind: DecisionKind, time: Time, ordinal: nat, choiceSet: seq<nat>): DecisionKey {
    Normalized(DecisionKey(kind, time, ordinal, choiceSet))
  }

  datatype ObservedDecision = ObservedDecision(key: DecisionKey, chosen: nat)

  /** What a scheduler decision chose from: older traces only have the metadata. */
  function ChoiceSet(d: SchedulerDecision): seq<nat> {
    if d.frontierSeqs != [] then d.frontierSeqs else Seqs(d.frontier)
  }

  /** The chosen stable id; None is a panic: an index out of bounds. */
  function ChosenId(chosen: Option<nat>, choiceSet: seq<nat>, index: nat): Option<nat> {
    if chosen.Some? then chosen
    else if index < |choiceSet| then Some(choiceSet[index])
    else None
  }

  function ObserveScheduler(d: SchedulerDecision, ordinal: nat): Option<ObservedDecision> {
    var id := ChosenId(d.chosenSeq, ChoiceSet(d), d.chosenIndex);
    if id.None? then None
    else Some(ObservedDecision(NewKey(FrontierChoice, d.time, ordinal, ChoiceSet(d)), id.value))
  }

  function ObserveReady(d: AsyncRuntimeDecision, ordinal: nat): Option<ObservedDecision> {
    var id := ChosenId(d.chosenTaskId, d.readyTaskIds, d.chosenIndex);
    if id.None? then None
    else Some(ObservedDecision(NewKey(ReadyChoice, d.time, ordinal, d.readyTaskIds), id.value))
  }

  function Observe(e: TraceEvent, frontiers: nat, readies: nat): Option<ObservedDecision> {
    match e
    case Scheduled(d) => ObserveScheduler(d, frontiers)
    case Readied(d) => ObserveReady(d, readies)
    case _ => None
  }

  predicate IsDecision(e: TraceEvent) { e.Scheduled? || e.Readied? }

  /**
   * What is observed of a recorded choice: the chosen id if it was recorded, otherwise the one at the
   * recorded index, and a panic exactly if there is none; under a key with the sorted, distinct ids.
   */
  lemma {:induction false} ObservedChoice(e: TraceEvent, f: nat, r: nat)
    requires IsDecision(e)
    ensures var (chosen, ids, index) :=
              if e.Scheduled? then (e.scheduler.chosenSeq, ChoiceSet(e.scheduler), e.scheduler.chosenIndex)
              else (e.ready.chosenTaskId, e.ready.readyTaskIds, e.ready.chosenIndex);
            var o := Observe(e, f, r);
            && (o.None? <==> chosen.None? && index >= |ids|)
            && (o.Some? ==>
                  && o.value.chosen == (if chosen.Some? then chosen.value else ids[index])
                  && o.value.key.ordinal == (if e.Scheduled? then f else r)
                  && StrictlyAscending(o.value.key.choiceSet)
                  && forall x :: x in o.value.key.choiceSet <==> x in ids)
  {}

  function Prepend(first: Option<ObservedDecision>, rest: Option<seq<ObservedDecision>>): Option<seq<ObservedDecision>>
  {
    if first.None? || rest.None? then None else Some([first.value] + rest.value)
  }

  function One(b: bool): nat { if b then 1 else 0 }

  /** The decisions of a trace from given ordinals on; None if some decision panics. */
  function ExtractFrom(t: seq<TraceEvent>, frontiers: nat, readies: nat): Option<seq<ObservedDecision>>
    decreases |t|
  {
    if t == [] then Some([])
    else
      var rest := ExtractFrom(t[1..], frontiers + One(t[0].Scheduled?), readies + One(t[0].Readied?));
      if IsDecision(t[0]) then Prepend(Observe(t[0], frontiers, readies), rest) else rest
  }

  function Extract(t: seq<TraceEvent>): Option<seq<ObservedDecision>> {
    ExtractFrom(t, 0, 0)
  }

  /** The extraction loop, with one running ordinal for each kind of decision. */
  method ExtractDecisions(trace: seq<TraceEvent>) returns (out: Option<seq<ObservedDecision>>)
    ensures out == Extract(trace)
  {
    var decisions := [];
    var frontierOrdinal, readyOrdinal := 0, 0;
    var i := 0;
    AppendNothing(Extract(trace));
    assert trace[0..] == trace;
    while i < |trace|
      invariant 0 <= i <= |trace|
      invariant Extract(trace) == Append(decisions, ExtractFrom(trace[i..], frontierOrdinal, readyOrdinal))
    {
      assert trace[i..][0] == trace[i] && trace[i..][1..] == trace[i + 1..];
      var observed: Option<ObservedDecision>;
      match trace[i] {
        case Scheduled(d) =>
          observed := ObserveScheduler(d, frontierOrdinal);
          frontierOrdinal := frontierOrdinal + 1;
        case Readied(d) =>
          observed := ObserveReady(d, readyOrdinal);
          readyOrdinal := readyOrdinal + 1;
        case _ =>
          i := i + 1;
          continue;
      }
      if observed.None? {
        return None;
      }
      AppendStep(decisions, observed.value, ExtractFrom(trace[i + 1..], frontierOrdinal, readyOrdinal));
      decisions := decisions + [observed.value];
      i := i + 1;
    }
    assert decisions + [] == decisions;
    return Some(decisions);
  }

  function Append(done: seq<ObservedDecision>, rest: Option<seq<ObservedDecision>>): Option<seq<ObservedDecision>> {
    if rest.None? then None else Some(done + rest.value)
  }

  lemma {:induction false} AppendNothing(rest: Option<seq<ObservedDecision>>)
    ensures Append([], rest) == rest
  {
    if rest.Some? {
      assert [] + rest.value == rest.value;
    }
  }

  lemma {:induction false} AppendStep(
      done: seq<ObservedDecision>, d: ObservedDecision, rest: Option<seq<ObservedDecision>>)
    ensures Append(done + [d], rest) == Append(done, Prepend(Some(d), rest))
  {
    if rest.Some? {
      assert (done + [d]) + rest.value == done + ([d] + rest.value);
    }
  }

  // ----- scripts -----

  type Script = map<DecisionKey, nat>

  /** Later decisions win. */
  function FromObserved(ds: seq<ObservedDecision>): Script {
    if ds == [] then map[]
    else FromObserved(ds[..|ds| - 1])[Normalized(ds[|ds| - 1].key) := ds[|ds| - 1].chosen]
  }

  function Lookup(s: Script, k: DecisionKey): Option<nat> {
    if Normalized(k) in s then Some(s[Normalized(k)]) else None
  }

  /** Keys that never repeat are all found again. */
  lemma {:induction false} ObservedAreFound(ds: seq<ObservedDecision>, i: nat)
    requires i < |ds| && forall j :: i < j < |ds| ==> Normalized(ds[j].key) != Normalized(ds[i].key)
    ensures Lookup(FromObserved(ds), ds[i].key) == Some(ds[i].chosen)
    decreases |ds|
  {
    if i < |ds| - 1 {
      ObservedAreFound(ds[..|ds| - 1], i);
    }
  }

  /** Why a key was not found although the script has a decision of that kind, time and ordinal. */
  datatype Match = Found(chosen: nat) | NotScripted | Mismatch(expected: seq<nat>, observed: seq<nat>)

  class DecisionScript {
    var decisions: Script

    constructor ()
      ensures decisions == map[]
    {
      decisions := map[];
    }

    method Put(key: DecisionKey, chosen: nat) returns (previous: Option<nat>)
      modifies this
      ensures decisions == old(decisions)[Normalized(key) := chosen]
      ensures previous == Lookup(old(decisions), key)
    {
      var k := Normalized(key);
      previous := if k in decisions then Some(decisions[k]) else None;
      decisions := decisions[k := chosen];
    }

    constructor FromList(ds: seq<ObservedDecision>)
      ensures decisions == FromObserved(ds)
    {
      decisions := map[];
      new;
      for i := 0 to |ds|
        invariant decisions == FromObserved(ds[..i])
      {
        assert ds[..i + 1][..i] == ds[..i];
        var _ := Put(ds[i].key, ds[i].chosen);
      }
      assert ds[..|ds|] == ds;
    }

    method Get(key: DecisionKey) returns (chosen: Option<nat>)
      ensures chosen == Lookup(decisions, key)
    {
      var k := Normalized(key);
      chosen := if k in decisions then Some(decisions[k]) else None;
    }

    /** Any scripted key of the same kind, time and ordinal explains a miss. */
    method MatchDecision(key: DecisionKey) returns (m: Match)
      ensures m.Found? <==> Lookup(decisions, key).Some?
      ensures m.Found? ==> Lookup(decisions, key) == Some(m.chosen)
      ensures m.Mismatch? ==> m.observed == Normalize(key.choiceSet) != m.expected
      ensures m.Mismatch? ==> DecisionKey(key.kind, key.time, key.ordinal, m.expected) in decisions
      ensures m.NotScripted? ==> forall c :: DecisionKey(key.kind, key.time, key.ordinal, c) !in decisions
    {
      var k := Normalized(key);
      if k in decisions {
        return Found(decisions[k]);
      }
      if o :| o in decisions && o.kind == k.kind && o.time == k.time && o.ordinal == k.ordinal {
        return Mismatch(o.choiceSet, k.choiceSet);
      }
      return NotScripted;
    }
  }
}
