/** Traces: the choices and draws of a run, in the order they were made. */
module Traces {
  import opened SimTime
  import opened Options
  import opened Vectors
  import opened Scheduling
  import opened Runtime

  /** A choice among same-time entries; `frontier` repeats the entries with their metadata. */
  datatype SchedulerDecision = SchedulerDecision(
    time: Time,
    chosenIndex: nat,
    chosenSeq: Option<nat>,
    frontierSeqs: seq<nat>,
    frontier: seq<FrontierEvent>)

  /** A choice among ready tasks. */
  datatype AsyncRuntimeDecision = AsyncRuntimeDecision(
    time: Time,
    chosenIndex: nat,
    chosenTaskId: Option<TaskId>,
    readyTaskIds: seq<TaskId>)

  /** A random sample at a tagged site; the sampled number is kept as an opaque code. */
  datatype RandomDraw = RandomDraw(site: nat, value: nat)

  datatype TraceEvent =
    | Drawn(draw: RandomDraw)
    | Scheduled(scheduler: SchedulerDecision)
    | Readied(ready: AsyncRuntimeDecision)
    | Concurrency(tag: int)

  /** Where all policies and random providers of a run record. */
  class TraceRecorder {
    var trace: seq<TraceEvent>

    constructor ()
      ensures trace == []
    {
      trace := [];
    }

    method Record(e: TraceEvent)
      modifies this
      ensures trace == old(trace) + [e]
    {
      trace := trace + [e];
    }
  }

  function SchedulerDecisions(t: seq<TraceEvent>): seq<SchedulerDecision> {
    if t == [] then []
    else (if t[0].Scheduled? then [t[0].scheduler] else []) + SchedulerDecisions(t[1..])
  }

  function ReadyDecisions(t: seq<TraceEvent>): seq<AsyncRuntimeDecision> {
    if t == [] then []
    else (if t[0].Readied? then [t[0].ready] else []) + ReadyDecisions(t[1..])
  }

  lemma {:induction false} NoReadyDecisions(t: seq<TraceEvent>)
    ensures ReadyDecisions(t) == [] <==> forall e <- t :: !e.Readied?
  {
    if t != [] {
      var rest := t[1..];
      NoReadyDecisions(rest);
      assert forall e :: e in t <==> e == t[0] || e in rest;
    }
  }

  function Draws(t: seq<TraceEvent>): seq<RandomDraw> {
    if t == [] then []
    else (if t[0].Drawn? then [t[0].draw] else []) + Draws(t[1..])
  }

  lemma {:induction false} SchedulerConcat(a: seq<TraceEvent>, b: seq<TraceEvent>)
    ensures SchedulerDecisions(a + b) == SchedulerDecisions(a) + SchedulerDecisions(b)
    decreases |a|
  {
    if a == [] {
      assert a + b == b;
    } else {
      TailOfConcat(a, b);
      SchedulerConcat(a[1..], b);
      ConcatAssoc(if a[0].Scheduled? then [a[0].scheduler] else [], SchedulerDecisions(a[1..]), SchedulerDecisions(b));
    }
  }

  lemma {:induction false} ReadyConcat(a: seq<TraceEvent>, b: seq<TraceEvent>)
    ensures ReadyDecisions(a + b) == ReadyDecisions(a) + ReadyDecisions(b)
    decreases |a|
  {
    if a == [] {
      assert a + b == b;
    } else {
      TailOfConcat(a, b);
      ReadyConcat(a[1..], b);
      ConcatAssoc(if a[0].Readied? then [a[0].ready] else [], ReadyDecisions(a[1..]), ReadyDecisions(b));
    }
  }

  lemma {:induction false} DrawsConcat(a: seq<TraceEvent>, b: seq<TraceEvent>)
    ensures Draws(a + b) == Draws(a) + Draws(b)
    decreases |a|
  {
    if a == [] {
      assert a + b == b;
    } else {
      TailOfConcat(a, b);
      DrawsConcat(a[1..], b);
      ConcatAssoc(if a[0].Drawn? then [a[0].draw] else [], Draws(a[1..]), Draws(b));
    }
  }

  lemma {:induction false} FiltersConcat(a: seq<TraceEvent>, b: seq<TraceEvent>)
    ensures SchedulerDecisions(a + b) == SchedulerDecisions(a) + SchedulerDecisions(b)
    ensures ReadyDecisions(a + b) == ReadyDecisions(a) + ReadyDecisions(b)
    ensures Draws(a + b) == Draws(a) + Draws(b)
  {
    SchedulerConcat(a, b);
    ReadyConcat(a, b);
    DrawsConcat(a, b);
  }

  function Seqs(frontier: seq<FrontierEvent>): (r: seq<nat>)
    ensures |r| == |frontier| && forall i :: 0 <= i < |r| ==> r[i] == frontier[i].eventId
  {
    if frontier == [] then [] else [frontier[0].eventId] + Seqs(frontier[1..])
  }

  /** The first index of x, or the length. */
  function Position(s: seq<nat>, x: nat): (i: nat)
    ensures i <= |s| && (i < |s| ==> s[i] == x) && (i < |s| <==> x in s)
    ensures forall j :: 0 <= j < i ==> s[j] != x
  {
    if s == [] then 0 else if s[0] == x then 0 else 1 + Position(s[1..], x)
  }
}
