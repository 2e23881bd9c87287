/** Recording, replaying and exploring the scheduler's same-time choices. */
module FrontierPolicies {
  import opened SimTime
  import opened Options
  import opened Vectors
  import opened Scheduling
  import opened Traces
  import opened Decisions

  /** The record of choosing index i. */
  function DecisionAt(time: Time, frontier: seq<FrontierEvent>, i: nat): SchedulerDecision {
    SchedulerDecision(time, i, if i < |frontier| then Some(frontier[i].eventId) else None, Seqs(frontier), frontier)
  }

  // ----- recording -----

  class RecordingFrontierPolicy<S> {
    const inner: FrontierPolicy<S>
    const recorder: TraceRecorder

    constructor (inner: FrontierPolicy<S>, recorder: TraceRecorder)
      ensures this.inner == inner && this.recorder == recorder
    {
      this.inner, this.recorder := inner, recorder;
    }

    method Choose(time: Time, frontier: seq<FrontierEvent>) returns (index: nat)
      modifies inner, recorder
      ensures var (s, pick) := old(inner.answer(inner.state, time, frontier));
        inner.state == s && index == Clamp(pick, |frontier|)
      ensures recorder.trace == old(recorder.trace) + [Scheduled(DecisionAt(time, frontier, index))]
      ensures var d := recorder.trace[|old(recorder.trace)|].scheduler;
              && d.time == time && d.chosenIndex == index && d.frontier == frontier
              && (frontier != [] ==> d.chosenSeq == Some(frontier[index].eventId))
              && |d.frontierSeqs| == |frontier|
              && forall j :: 0 <= j < |frontier| ==> d.frontierSeqs[j] == frontier[j].eventId
    {
      index := inner.Choose(time, frontier);
      index := Clamp(index, |frontier|);
      recorder.Record(Scheduled(DecisionAt(time, frontier, index)));
    }
  }

  // ----- replaying -----

  datatype ReplayError =
    | OutOfDecisions(index: nat, time: Time, ids: seq<nat>)
    | TimeMismatch(index: nat, expectedTime: Time, actualTime: Time)
    | SetMismatch(index: nat, time: Time, expected: seq<nat>, actual: seq<nat>)
    | ChosenNotFound(index: nat, time: Time, chosen: nat, ids: seq<nat>)
    | IndexOutOfBounds(index: nat, time: Time, chosenIndex: nat, length: nat)

  datatype Replay = Replay(decisions: seq<SchedulerDecision>, next: nat, error: Option<ReplayError>)

  function ReplayChoose(r: Replay, time: Time, frontier: seq<FrontierEvent>): (Replay, nat) {
    if r.error.Some? then (r, 0)
    else
      var ids := Seqs(frontier);
      if r.next >= |r.decisions| then (r.(error := Some(OutOfDecisions(r.next, time, ids))), 0)
      else
        var d, q := r.decisions[r.next], r.(next := r.next + 1);
        if d.time != time then (q.(error := Some(TimeMismatch(r.next, d.time, time))), 0)
        else if ChoiceSet(d) != [] && Normalize(ChoiceSet(d)) != Normalize(ids) then
          (q.(error := Some(SetMismatch(r.next, d.time, ChoiceSet(d), ids))), 0)
        else if d.chosenSeq.Some? then
          var i := Position(ids, d.chosenSeq.value);
          if i < |ids| then (q, i) else (q.(error := Some(ChosenNotFound(r.next, d.time, d.chosenSeq.value, ids))), 0)
        else if frontier == [] then (q, 0)
        else if d.chosenIndex >= |frontier| then
          (q.(error := Some(IndexOutOfBounds(r.next, d.time, d.chosenIndex, |frontier|))), |frontier| - 1)
        else (q, d.chosenIndex)
  }

  class ReplayFrontierPolicy {
    var decisions: seq<SchedulerDecision>
    var next: nat
    var error: Option<ReplayError>

    ghost function Now(): Replay
      reads this
    {
      Replay(decisions, next, error)
    }

    constructor FromTraceEvents(events: seq<TraceEvent>)
      ensures Now() == Replay(SchedulerDecisions(events), 0, None)
    {
      decisions, next, error := SchedulerDecisions(events), 0, None;
    }

    method TakeError() returns (e: Option<ReplayError>)
      modifies this`error
      ensures e == old(error) && error == None
    {
      e := error;
      error := None;
    }

    method Choose(time: Time, frontier: seq<FrontierEvent>) returns (index: nat)
      modifies this
      ensures (Now(), index) == ReplayChoose(old(Now()), time, frontier)
    {
      if error.Some? {
        return 0;
      }
      var at := next;
      var ids := Seqs(frontier);
      if at >= |decisions| {
        error := Some(OutOfDecisions(at, time, ids));
        return 0;
      }
      var d := decisions[at];
      next := next + 1;
      if d.time != time {
        error := Some(TimeMismatch(at, d.time, time));
        return 0;
      }
      var expected := ChoiceSet(d);
      if expected != [] && Normalize(expected) != Normalize(ids) {
        error := Some(SetMismatch(at, d.time, expected, ids));
        return 0;
      }
      if d.chosenSeq.Some? {
        var i := Position(ids, d.chosenSeq.value);
        if i < |ids| {
          return i;
        }
        error := Some(ChosenNotFound(at, d.time, d.chosenSeq.value, ids));
        return 0;
      }
      if frontier == [] {
        return 0;
      }
      if d.chosenIndex >= |frontier| {
        error := Some(IndexOutOfBounds(at, d.time, d.chosenIndex, |frontier|));
      }
      index := if d.chosenIndex < |frontier| then d.chosenIndex else |frontier| - 1;
    }
  }

  /** A choice point: when, and among what. */
  datatype Point = Point(time: Time, frontier: seq<FrontierEvent>)

  /** The decision fits the choice point: same time, same set of ids if one was recorded, and its choice is there. */
  ghost predicate Fits(d: SchedulerDecision, p: Point) {
    && d.time == p.time
    && (ChoiceSet(d) != [] ==> forall x :: x in ChoiceSet(d) <==> x in Seqs(p.frontier))
    && (d.chosenSeq.Some? ==> d.chosenSeq.value in Seqs(p.frontier))
    && (d.chosenSeq.None? && p.frontier != [] ==> d.chosenIndex < |p.frontier|)
  }

  /** The index is that of the recorded choice. */
  predicate Follows(d: SchedulerDecision, p: Point, index: nat) {
    if d.chosenSeq.Some? then index < |p.frontier| && p.frontier[index].eventId == d.chosenSeq.value
    else if p.frontier == [] then index == 0
    else index == d.chosenIndex
  }

  lemma {:induction false} ReplayCall(r: Replay, p: Point)
    requires r.error.None?
    ensures var (q, index) := ReplayChoose(r, p.time, p.frontier);
      && q.decisions == r.decisions
      && (q.error.None? <==> r.next < |r.decisions| && Fits(r.decisions[r.next], p))
      && (q.error.None? ==> q.next == r.next + 1 && Follows(r.decisions[r.next], p, index))
  {
    if r.next < |r.decisions| {
      NormalizeIsCanonical(ChoiceSet(r.decisions[r.next]), Seqs(p.frontier));
    }
  }

  /** Why a call fails, in the order in which the reasons are looked for, and what it then answers. */
  lemma {:induction false} ReplayFailure(r: Replay, p: Point)
    requires r.error.None?
    ensures var (q, index) := ReplayChoose(r, p.time, p.frontier);
      if r.next >= |r.decisions| then
        q == r.(error := Some(OutOfDecisions(r.next, p.time, Seqs(p.frontier)))) && index == 0
      else
        var d := r.decisions[r.next];
        var sameSet := ChoiceSet(d) == [] || forall x :: x in ChoiceSet(d) <==> x in Seqs(p.frontier);
        && q.next == r.next + 1
        && (d.time != p.time ==> q.error == Some(TimeMismatch(r.next, d.time, p.time)) && index == 0)
        && (d.time == p.time && !sameSet ==>
              q.error == Some(SetMismatch(r.next, d.time, ChoiceSet(d), Seqs(p.frontier))) && index == 0)
        && (d.time == p.time && sameSet && d.chosenSeq.Some? && d.chosenSeq.value !in Seqs(p.frontier) ==>
              q.error == Some(ChosenNotFound(r.next, d.time, d.chosenSeq.value, Seqs(p.frontier))) && index == 0)
        && (d.time == p.time && sameSet && d.chosenSeq.None? && 0 < |p.frontier| <= d.chosenIndex ==>
              && q.error == Some(IndexOutOfBounds(r.next, d.time, d.chosenIndex, |p.frontier|))
              && index == |p.frontier| - 1)
  {
    if r.next < |r.decisions| {
      NormalizeIsCanonical(ChoiceSet(r.decisions[r.next]), Seqs(p.frontier));
    }
  }

  /** A whole sequence of calls: the final state and the answers. */
  function ReplayAll(r: Replay, ps: seq<Point>): (Replay, seq<nat>)
    decreases |ps|
  {
    if ps == [] then (r, [])
    else
      var (q, index) := ReplayChoose(r, ps[0].time, ps[0].frontier);
      var (final, rest) := ReplayAll(q, ps[1..]);
      (final, [index] + rest)
  }

  /** The first error is final: no later call consumes a decision, replaces the error, or answers anything but 0. */
  lemma {:induction false} ErrorIsSticky(r: Replay, ps: seq<Point>)
    requires r.error.Some?
    ensures var (final, answers) := ReplayAll(r, ps);
      final == r && |answers| == |ps| && forall i :: 0 <= i < |ps| ==> answers[i] == 0
    decreases |ps|
  {
    if ps != [] {
      ErrorIsSticky(r, ps[1..]);
    }
  }

  /** Every call finds a decision left, and fits it. */
  ghost predicate AllFit(r: Replay, ps: seq<Point>) {
    && r.next + |ps| <= |r.decisions|
    && forall i :: 0 <= i < |ps| ==> Fits(r.decisions[r.next + i], ps[i])
  }

  lemma {:induction false} AllFitStep(r: Replay, q: Replay, ps: seq<Point>)
    requires ps != [] && r.next < |r.decisions| && q.decisions == r.decisions && q.next == r.next + 1
    ensures AllFit(r, ps) <==> Fits(r.decisions[r.next], ps[0]) && AllFit(q, ps[1..])
  {
    if Fits(r.decisions[r.next], ps[0]) && AllFit(q, ps[1..]) {
      forall i | 0 <= i < |ps| ensures Fits(r.decisions[r.next + i], ps[i]) {
        if i > 0 {
          assert ps[i] == ps[1..][i - 1] && Fits(q.decisions[q.next + (i - 1)], ps[1..][i - 1]);
        }
      }
    }
    if AllFit(r, ps) {
      assert Fits(r.decisions[r.next + 0], ps[0]);
      forall i | 0 <= i < |ps[1..]| ensures Fits(q.decisions[q.next + i], ps[1..][i]) {
        assert Fits(r.decisions[r.next + (i + 1)], ps[i + 1]);
      }
    }
  }

  lemma {:induction false} NoFirstFit(r: Replay, ps: seq<Point>)
    requires ps != [] && (r.next < |r.decisions| ==> !Fits(r.decisions[r.next], ps[0]))
    ensures !AllFit(r, ps)
  {
    if r.next + |ps| <= |r.decisions| {
      assert !Fits(r.decisions[r.next + 0], ps[0]);
    }
  }

  ghost predicate AnswersFollow(r: Replay, ps: seq<Point>, answers: seq<nat>) {
    && r.next + |ps| <= |r.decisions| && |answers| == |ps|
    && forall i :: 0 <= i < |ps| ==> Follows(r.decisions[r.next + i], ps[i], answers[i])
  }

  lemma {:induction false} AnswersFollowStep(r: Replay, q: Replay, ps: seq<Point>, index: nat, rest: seq<nat>)
    requires ps != [] && r.next < |r.decisions| && q.decisions == r.decisions && q.next == r.next + 1
    requires Follows(r.decisions[r.next], ps[0], index) && AnswersFollow(q, ps[1..], rest)
    ensures AnswersFollow(r, ps, [index] + rest)
  {
    var answers := [index] + rest;
    forall i | 0 <= i < |ps| ensures Follows(r.decisions[r.next + i], ps[i], answers[i]) {
      if i > 0 {
        assert Follows(q.decisions[q.next + (i - 1)], ps[1..][i - 1], rest[i - 1]);
      }
    }
  }

  /**
   * No error after all calls if and only if every choice point fits the decision it consumed, in
   * order; then every answer is the recorded choice.
   */
  lemma {:induction false} ReplayIsSound(r: Replay, ps: seq<Point>)
    requires r.error.None? && r.next <= |r.decisions|
    ensures var (final, answers) := ReplayAll(r, ps);
      && (final.error.None? <==> AllFit(r, ps))
      && (final.error.None? ==> final == r.(next := r.next + |ps|) && AnswersFollow(r, ps, answers))
    decreases |ps|
  {
    if ps != [] {
      ReplayCall(r, Point(ps[0].time, ps[0].frontier));
      var (q, index) := ReplayChoose(r, ps[0].time, ps[0].frontier);
      if q.error.Some? {
        ErrorIsSticky(q, ps[1..]);
        NoFirstFit(r, ps);
      } else {
        AllFitStep(r, q, ps);
        ReplayIsSound(q, ps[1..]);
        if AllFit(q, ps[1..]) {
          AnswersFollowStep(r, q, ps, index, ReplayAll(q, ps[1..]).1);
        }
      }
    }
  }

  /** Against a recorded decision, a clean call means the same time, the same set of ids, and the same choice. */
  lemma {:induction false} RecordedDecisionFits(time: Time, frontier: seq<FrontierEvent>, i: nat, p: Point)
    requires i < |frontier|
    ensures Fits(DecisionAt(time, frontier, i), p) <==> p.time == time && forall x :: x in Seqs(frontier) <==>
            x in Seqs(p.frontier)
  {
    assert Seqs(frontier)[i] in Seqs(frontier);
  }

  /** Older traces list the ids only with the metadata; their decisions are compared just so. */
  lemma {:induction false} OlderDecisionFits(time: Time, frontier: seq<FrontierEvent>, i: nat, p: Point)
    requires i < |frontier|
    ensures Fits(DecisionAt(time, frontier, i).(frontierSeqs := []), p) <==> Fits(DecisionAt(time, frontier, i), p)
  {
    assert ChoiceSet(DecisionAt(time, frontier, i).(frontierSeqs := [])) == ChoiceSet(DecisionAt(time, frontier, i));
  }

  /**
   * A decision without ids is not compared with the frontier: a call at its time stays clean on any
   * frontier its index lies in, and answers that index.
   */
  lemma {:induction false} BareDecisionFits(r: Replay, p: Point)
    requires r.error.None? && r.next < |r.decisions|
    requires var d := r.decisions[r.next]; d.chosenSeq.None? && ChoiceSet(d) == []
    ensures var d := r.decisions[r.next];
            var (q, index) := ReplayChoose(r, p.time, p.frontier);
            && (q.error.None? <==> d.time == p.time && (p.frontier == [] || d.chosenIndex < |p.frontier|))
            && (q.error.None? && p.frontier != [] ==> index == d.chosenIndex)
  {
    ReplayCall(r, p);
  }

  /** So one such decision replays cleanly on two frontiers without a common entry, choosing different events. */
  lemma {:induction false} BareDecisionMisses(a: FrontierEvent, b: FrontierEvent)
    requires a.eventId != b.eventId
    ensures var r := Replay([SchedulerDecision(0, 0, None, [], [])], 0, None);
            var (onA, i) := ReplayChoose(r, 0, [a]);
            var (onB, j) := ReplayChoose(r, 0, [b]);
            onA.error.None? && onB.error.None? && i < 1 && j < 1 && [a][i] != [b][j]
  {
    var r := Replay([SchedulerDecision(0, 0, None, [], [])], 0, None);
    BareDecisionFits(r, Point(0, [a]));
    BareDecisionFits(r, Point(0, [b]));
  }

  lemma {:induction false} FittingCall(r: Replay, p: Point, i: nat)
    requires r.error.None? && r.next < |r.decisions| && Fits(r.decisions[r.next], p)
    requires i < |p.frontier| && r.decisions[r.next].chosenSeq == Some(p.frontier[i].eventId)
    requires Distinct(Seqs(p.frontier))
    ensures ReplayChoose(r, p.time, p.frontier).0 == r.(next := r.next + 1)
    ensures ReplayChoose(r, p.time, p.frontier).1 == i
  {
    ReplayCall(r, p);
    SameIdSameIndex(p.frontier, ReplayChoose(r, p.time, p.frontier).1, i);
  }

  /** On the recorded choice point itself, replay answers the recorded index. */
  lemma {:induction false} ReplayRecorded(r: Replay, time: Time, frontier: seq<FrontierEvent>, i: nat)
    requires r.error.None? && r.next < |r.decisions| && r.decisions[r.next] == DecisionAt(time, frontier, i)
    requires i < |frontier| && Distinct(Seqs(frontier))
    ensures ReplayChoose(r, time, frontier) == (r.(next := r.next + 1), i)
  {
    RecordedDecisionFits(time, frontier, i, Point(time, frontier));
    FittingCall(r, Point(time, frontier), i);
  }

  lemma {:induction false} SameIdSameIndex(frontier: seq<FrontierEvent>, i: nat, j: nat)
    requires Distinct(Seqs(frontier)) && i < |frontier| && j < |frontier| && frontier[i].eventId == frontier[j].eventId
    ensures i == j
  {
    assert Seqs(frontier)[i] == Seqs(frontier)[j];
  }

  // ----- exploring -----

  /** An exploration policy's mutable state: the base policy's, the ordinal, and the shared trace. */
  datatype Exploration<S> = Exploration(inner: S, ordinal: nat, trace: seq<TraceEvent>)

  /** The index a script forces, if it forces an id that is there. */
  function Forced(script: Option<Script>, key: DecisionKey, ids: seq<nat>): (i: Option<nat>)
    ensures i.Some? ==> i.value < |ids|
  {
    if script.None? then None
    else
      var chosen := Lookup(script.value, key);
      if chosen.Some? && Position(ids, chosen.value) < |ids| then Some(Position(ids, chosen.value)) else None
  }

  function ExploreChoose<S>(
      x: Exploration<S>, answer: FrontierAnswer<S>, script: Option<Script>, time: Time,
      frontier: seq<FrontierEvent>): (Exploration<S>, nat)
  {
    var forced := Forced(script, NewKey(FrontierChoice, time, x.ordinal, Seqs(frontier)), Seqs(frontier));
    var (inner, pick) := if forced.Some? then (x.inner, forced.value) else answer(x.inner, time, frontier);
    var index := Clamp(pick, |frontier|);
    (Exploration(inner, x.ordinal + 1, x.trace + [Scheduled(DecisionAt(time, frontier, index))]), index)
  }

  /** The id that a script asks for, if it is among the ids of the choice point. */
  ghost predicate Scripts(script: Option<Script>, key: DecisionKey, ids: seq<nat>, id: nat) {
    script.Some? && Lookup(script.value, key) == Some(id) && id in ids
  }

  /** One exploring call: the scripted id if it is there, otherwise what the base policy answers, brought into range. */
  lemma {:induction false} ExploreCall<S>(
      x: Exploration<S>, answer: FrontierAnswer<S>, script: Option<Script>, time: Time, frontier: seq<FrontierEvent>)
    requires frontier != []
    ensures var (y, index) := ExploreChoose(x, answer, script, time, frontier);
            var key := NewKey(FrontierChoice, time, x.ordinal, Seqs(frontier));
            && index < |frontier| && y.ordinal == x.ordinal + 1
            && y.trace == x.trace + [Scheduled(DecisionAt(time, frontier, index))]
            && (forall id :: Scripts(script, key, Seqs(frontier), id) ==>
                  y.inner == x.inner && frontier[index].eventId == id)
            && ((forall id :: !Scripts(script, key, Seqs(frontier), id)) ==>
                  var (inner, pick) := answer(x.inner, time, frontier);
                  y.inner == inner && index == if pick < |frontier| then pick else |frontier| - 1)
  {
    var key := NewKey(FrontierChoice, time, x.ordinal, Seqs(frontier));
    if script.Some? && Lookup(script.value, key).Some? {
      assert Lookup(script.value, key).value in Seqs(frontier) ==>
          Scripts(script, key, Seqs(frontier), Lookup(script.value, key).value);
    }
  }

  /** Looks the key up in the script, if there is one, and the scripted id up among the ids. */
  method ForcedIndex(script: Option<DecisionScript>, key: DecisionKey, ids: seq<nat>) returns (forced: Option<nat>)
    ensures forced == Forced(if script.Some? then Some(script.value.decisions) else None, key, ids)
  {
    forced := None;
    if script.Some? {
      var chosen := script.value.Get(key);
      if chosen.Some? {
        var i := Position(ids, chosen.value);
        forced := if i < |ids| then Some(i) else None;
      }
    }
  }

  class ExplorationFrontierPolicy<S> {
    const inner: FrontierPolicy<S>
    const script: Option<DecisionScript>
    const recorder: TraceRecorder
    var nextOrdinal: nat

    constructor (inner: FrontierPolicy<S>, script: Option<DecisionScript>, recorder: TraceRecorder)
      ensures this.inner == inner && this.script == script && this.recorder == recorder && nextOrdinal == 0
    {
      this.inner, this.script, this.recorder, nextOrdinal := inner, script, recorder, 0;
    }

    ghost function Now(): Exploration<S>
      reads this, inner, recorder
    {
      Exploration(inner.state, nextOrdinal, recorder.trace)
    }

    ghost function ScriptNow(): Option<Script>
      reads if script.Some? then {script.value} else {}
    {
      if script.Some? then Some(script.value.decisions) else None
    }

    method Choose(time: Time, frontier: seq<FrontierEvent>) returns (index: nat)
      modifies this, inner, recorder
      ensures (Now(), index) == ExploreChoose(old(Now()), inner.answer, ScriptNow(), time, frontier)
    {
      var ids := Seqs(frontier);
      var ordinal := nextOrdinal;
      nextOrdinal := nextOrdinal + 1;
      var forced := ForcedIndex(script, NewKey(FrontierChoice, time, ordinal, ids), ids);
      if forced.Some? {
        index := forced.value;
      } else {
        index := inner.Choose(time, frontier);
      }
      index := Clamp(index, |frontier|);
      recorder.Record(Scheduled(DecisionAt(time, frontier, index)));
    }
  }
}
