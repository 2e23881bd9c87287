/** Recording, replaying and exploring the runtime's choices among ready tasks. */
module ReadyPolicies {
  import opened SimTime
  import opened Options
  import opened Vectors
  import opened Runtime
  import opened AsyncRuntime
  import opened Traces
  import opened Decisions
  import opened FrontierPolicies

  function ReadyDecisionAt(time: Time, ready: seq<TaskId>, i: nat): AsyncRuntimeDecision {
    AsyncRuntimeDecision(time, i, if i < |ready| then Some(ready[i]) else None, ready)
  }

  class RecordingReadyTaskPolicy<S> {
    const inner: ReadyTaskPolicy<S>
    const recorder: TraceRecorder

    constructor (inner: ReadyTaskPolicy<S>, recorder: TraceRecorder)
      ensures this.inner == inner && this.recorder == recorder
    {
      this.inner, this.recorder := inner, recorder;
    }

    method Choose(time: Time, ready: seq<TaskId>) returns (index: nat)
      modifies inner, recorder
      ensures var (s, pick) := old(inner.answer(inner.state, time, ready));
        inner.state == s && index == Clamp(pick, |ready|)
      ensures recorder.trace == old(recorder.trace) + [Readied(ReadyDecisionAt(time, ready, index))]
      ensures var d := recorder.trace[|old(recorder.trace)|].ready;
              && d.time == time && d.chosenIndex == index && d.readyTaskIds == ready
              && (ready != [] ==> d.chosenTaskId == Some(ready[index]))
    {
      index := inner.Choose(time, ready);
      index := Clamp(index, |ready|);
      recorder.Record(Readied(ReadyDecisionAt(time, ready, index)));
    }
  }

  // ----- replaying -----

  /** With `fifoFallback` the trace had no ready-task decisions at all. */
  datatype ReadyReplay = ReadyReplay(
    decisions: seq<AsyncRuntimeDecision>,
    next: nat,
    error: Option<ReplayError>,
    fifoFallback: bool,
    warned: bool)

  function ReadyReplayOf(events: seq<TraceEvent>): ReadyReplay {
    ReadyReplay(ReadyDecisions(events), 0, None, ReadyDecisions(events) == [], false)
  }

  function ReadyReplayChoose(r: ReadyReplay, time: Time, ready: seq<TaskId>): (ReadyReplay, nat) {
    if r.error.Some? then (r, 0)
    else if r.fifoFallback then (r.(warned := true), 0)
    else if r.next >= |r.decisions| then (r.(error := Some(OutOfDecisions(r.next, time, ready))), 0)
    else
      var d, q := r.decisions[r.next], r.(next := r.next + 1);
      if d.time != time then (q.(error := Some(TimeMismatch(r.next, d.time, time))), 0)
      else if d.readyTaskIds != [] && Normalize(d.readyTaskIds) != Normalize(ready) then
        (q.(error := Some(SetMismatch(r.next, d.time, d.readyTaskIds, ready))), 0)
      else if d.chosenTaskId.Some? then
        var i := Position(ready, d.chosenTaskId.value);
        if i < |ready| then (q, i)
          else (q.(error := Some(ChosenNotFound(r.next, d.time, d.chosenTaskId.value, ready))), 0)
      else if ready == [] then (q, 0)
      else (q, Clamp(d.chosenIndex, |ready|))
  }

  class ReplayReadyTaskPolicy {
    var decisions: seq<AsyncRuntimeDecision>
    var next: nat
    var error: Option<ReplayError>
    const fifoFallback: bool
    var warned: bool

    ghost function Now(): ReadyReplay
      reads this
    {
      ReadyReplay(decisions, next, error, fifoFallback, warned)
    }

    constructor FromTraceEvents(events: seq<TraceEvent>)
      ensures Now() == ReadyReplayOf(events)
      ensures decisions == ReadyDecisions(events) && next == 0 && error == None && !warned
      ensures fifoFallback <==> forall e <- events :: !e.Readied?
    {
      decisions, next, error := ReadyDecisions(events), 0, None;
      fifoFallback, warned := |ReadyDecisions(events)| == 0, false;
      NoReadyDecisions(events);
    }

    method TakeError() returns (e: Option<ReplayError>)
      modifies this`error
      ensures e == old(error) && error == None
    {
      e := error;
      error := None;
    }

    method Choose(time: Time, ready: seq<TaskId>) returns (index: nat)
      modifies this
      ensures (Now(), index) == ReadyReplayChoose(old(Now()), time, ready)
    {
      if error.Some? {
        return 0;
      }
      if fifoFallback {
        if !warned {
          warned := true;
        }
        return 0;
      }
      var at := next;
      if at >= |decisions| {
        error := Some(OutOfDecisions(at, time, ready));
        return 0;
      }
      var d := decisions[at];
      next := next + 1;
      if d.time != time {
        error := Some(TimeMismatch(at, d.time, time));
        return 0;
      }
      if d.readyTaskIds != [] && Normalize(d.readyTaskIds) != Normalize(ready) {
        error := Some(SetMismatch(at, d.time, d.readyTaskIds, ready));
        return 0;
      }
      if d.chosenTaskId.Some? {
        var i := Position(ready, d.chosenTaskId.value);
        if i < |ready| {
          return i;
        }
        error := Some(ChosenNotFound(at, d.time, d.chosenTaskId.value, ready));
        return 0;
      }
      if ready == [] {
        return 0;
      }
      index := if d.chosenIndex < |ready| then d.chosenIndex else |ready| - 1;
    }
  }

  /** Unlike for frontiers, an index out of range is not an error. */
  ghost predicate ReadyFits(d: AsyncRuntimeDecision, time: Time, ready: seq<TaskId>) {
    && d.time == time
    && (d.readyTaskIds != [] ==> forall x :: x in d.readyTaskIds <==> x in ready)
    && (d.chosenTaskId.Some? ==> d.chosenTaskId.value in ready)
  }

  /** One call: it stays clean if and only if the ready set fits the decision consumed, whose choice it repeats. */
  lemma {:induction false} ReadyReplayCall(r: ReadyReplay, time: Time, ready: seq<TaskId>)
    requires r.error.None?
    ensures var (q, index) := ReadyReplayChoose(r, time, ready);
      && q.decisions == r.decisions && q.fifoFallback == r.fifoFallback
      && (q.error.None? <==> r.fifoFallback || (r.next < |r.decisions| && ReadyFits(r.decisions[r.next], time, ready)))
      && (q.error.None? && !r.fifoFallback ==> q.next == r.next + 1)
      && (q.error.None? && !r.fifoFallback && r.decisions[r.next].chosenTaskId.Some? ==>
            index < |ready| && ready[index] == r.decisions[r.next].chosenTaskId.value)
      && (q.error.None? && !r.fifoFallback && r.decisions[r.next].chosenTaskId.None? && ready != [] ==>
            var i := r.decisions[r.next].chosenIndex; index == if i < |ready| then i else |ready| - 1)
      && (r.fifoFallback ==> index == 0 && q == r.(warned := true))
  {
    if r.next < |r.decisions| {
      NormalizeIsCanonical(r.decisions[r.next].readyTaskIds, ready);
    }
  }

  /** Why a call fails, in the order in which the reasons are looked for; it then answers 0. */
  lemma {:induction false} ReadyReplayFailure(r: ReadyReplay, time: Time, ready: seq<TaskId>)
    requires r.error.None? && !r.fifoFallback
    ensures var (q, index) := ReadyReplayChoose(r, time, ready);
      && (q.error.Some? ==> index == 0)
      && if r.next >= |r.decisions| then q == r.(error := Some(OutOfDecisions(r.next, time, ready)))
         else
           var d := r.decisions[r.next];
           var sameSet := d.readyTaskIds == [] || forall x :: x in d.readyTaskIds <==> x in ready;
           && q.next == r.next + 1
           && (d.time != time ==> q.error == Some(TimeMismatch(r.next, d.time, time)))
           && (d.time == time && !sameSet ==> q.error == Some(SetMismatch(r.next, d.time, d.readyTaskIds, ready)))
           && (d.time == time && sameSet && d.chosenTaskId.Some? && d.chosenTaskId.value !in ready ==>
                 q.error == Some(ChosenNotFound(r.next, d.time, d.chosenTaskId.value, ready)))
  {
    if r.next < |r.decisions| {
      NormalizeIsCanonical(r.decisions[r.next].readyTaskIds, ready);
    }
  }

  /** The first error is final for this policy too. */
  lemma {:induction false} ReadyErrorIsSticky(r: ReadyReplay, time: Time, ready: seq<TaskId>)
    requires r.error.Some?
    ensures ReadyReplayChoose(r, time, ready) == (r, 0)
  {}

  lemma {:induction false} ReadyReplayRecorded(r: ReadyReplay, time: Time, ready: seq<TaskId>, i: nat)
    requires r.error.None? && !r.fifoFallback
             && r.next < |r.decisions| && r.decisions[r.next] == ReadyDecisionAt(time, ready, i)
    requires i < |ready| && Distinct(ready)
    ensures ReadyReplayChoose(r, time, ready) == (r.(next := r.next + 1), i)
  {
    ReadyReplayCall(r, time, ready);
    assert ready[i] in ready;
  }

  // ----- exploring -----

  function ReadyExploreChoose<S>(
      x: Exploration<S>, answer: ReadyAnswer<S>, script: Option<Script>, time: Time,
      ready: seq<TaskId>): (Exploration<S>, nat)
  {
    var forced := Forced(script, NewKey(ReadyChoice, time, x.ordinal, ready), ready);
    var (inner, pick) := if forced.Some? then (x.inner, forced.value) else answer(x.inner, time, ready);
    var index := Clamp(pick, |ready|);
    (Exploration(inner, x.ordinal + 1, x.trace + [Readied(ReadyDecisionAt(time, ready, index))]), index)
  }

  /** One exploring call: the scripted task if it is ready, otherwise the base policy's answer, brought into range. */
  lemma {:induction false} ReadyExploreCall<S>(
      x: Exploration<S>, answer: ReadyAnswer<S>, script: Option<Script>, time: Time, ready: seq<TaskId>)
    requires ready != []
    ensures var (y, index) := ReadyExploreChoose(x, answer, script, time, ready);
            var key := NewKey(ReadyChoice, time, x.ordinal, ready);
            && index < |ready| && y.ordinal == x.ordinal + 1
            && y.trace == x.trace + [Readied(ReadyDecisionAt(time, ready, index))]
            && (forall id :: Scripts(script, key, ready, id) ==> y.inner == x.inner && ready[index] == id)
            && ((forall id :: !Scripts(script, key, ready, id)) ==>
                  var (inner, pick) := answer(x.inner, time, ready);
                  y.inner == inner && index == if pick < |ready| then pick else |ready| - 1)
  {
    var key := NewKey(ReadyChoice, time, x.ordinal, ready);
    if script.Some? && Lookup(script.value, key).Some? {
      assert Lookup(script.value, key).value in ready ==>
          Scripts(script, key, ready, Lookup(script.value, key).value);
    }
  }

  class ExplorationReadyTaskPolicy<S> {
    const inner: ReadyTaskPolicy<S>
    const script: Option<DecisionScript>
    const recorder: TraceRecorder
    var nextOrdinal: nat

    constructor (inner: ReadyTaskPolicy<S>, script: Option<DecisionScript>, recorder: TraceRecorder)
      ensures this.inner == inner && this.script == script && this.recorder == recorder && nextOrdinal == 0
    {
      this.inner, this.script, this.recorder, nextOrdinal := inner, script, recorder, 0;
    }

    ghost function Now(): Exploration<S>
      reads this, inner, recorder
    {
      Exploration(inner.state, nextOrdinal, recorder.trace)
    }

    ghost function ScriptNow(): Option<Script>
      reads if script.Some? then {script.value} else {}
    {
      if script.Some? then Some(script.value.decisions) else None
    }

    method Choose(time: Time, ready: seq<TaskId>) returns (index: nat)
      modifies this, inner, recorder
      ensures (Now(), index) == ReadyExploreChoose(old(Now()), inner.answer, ScriptNow(), time, ready)
    {
      var ordinal := nextOrdinal;
      nextOrdinal := nextOrdinal + 1;
      var forced := ForcedIndex(script, NewKey(ReadyChoice, time, ordinal, ready), ready);
      if forced.Some? {
        index := forced.value;
      } else {
        index := inner.Choose(time, ready);
      }
      index := Clamp(index, |ready|);
      recorder.Record(Readied(ReadyDecisionAt(time, ready, index)));
    }
  }
}
