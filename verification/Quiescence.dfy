/** The client/server system always runs out of events, and what is true when it has. */
module Quiescence {
  import opened SimTime
  import opened Options
  import opened Ids
  import opened KernelInvariants
  import opened RetryPolicies
  import opened Queues
  import opened ClientServer
  import opened Sums
  import opened RetrySystem
  import Kernel

  // ----- the potential -----

  /** How many steps, at most, an event still stands for. */
  function Weight(max: nat): Msg -> nat {
    (m: Msg) =>
      match m
      case ToClient(SendRequest) => 6 + 6 * max
      case ToClient(ResponseReceived(_)) => 1
      case ToClient(RequestTimeout(_, _)) => 1
      case ToClient(RetryRequest(_)) => 6
      case ToServer(ProcessRequest(_, _)) => 4
      case ToServer(RequestCompleted(_, _, _)) => 3
      case ToServer(ProcessQueuedRequests) => 1
  }

  /** The retries a request may still be granted. */
  function LeftOf(): Active -> nat {
    (a: Active) => if a.budget.current <= a.budget.max then a.budget.max - a.budget.current else 0
  }

  ghost function ClientShare(c: Client, k: Queued): nat {
    Weighed(k, Weight(c.maxRetries)) + 6 * Total(c.active, LeftOf())
  }

  ghost function Potential(n: Net): nat {
    ClientShare(n.client, n.k) + 3 * Depth(n.server)
  }

  lemma {:induction false} SendShare(c: Client, k: Queued, self: Uuid)
    requires QueueOk(k) && c.nextRequestId !in c.active
    ensures var (c1, k1) := HandleSend(c, k, self); ClientShare(c1, k1) == ClientShare(c, k) + 5 + 6 * c.maxRetries
  {
    var (c1, k1) := HandleSend(c, k, self);
    SendAdds(c.(nextRequestId := c.nextRequestId + 1), k, self, c.nextRequestId, 1, Weight(c.maxRetries));
    TotalInsert(c.active, c.nextRequestId, c1.active[c.nextRequestId], LeftOf());
  }

  lemma {:induction false} SucceedShare(c: Client, k: Queued, request: nat)
    requires request in c.active
    ensures ClientShare(Succeed(c, request), k) <= ClientShare(c, k)
  {
    TotalReplace(c.active, request, c.active[request], LeftOf());
  }

  lemma {:induction false} FailShare(c: Client, k: Queued, request: nat)
    requires request in c.active
    ensures ClientShare(Fail(c, request), k) <= ClientShare(c, k)
  {
    TotalReplace(c.active, request, c.active[request], LeftOf());
  }

  /** A granted retry is paid for by the budget it uses up. */
  lemma {:induction false} RetryingShare(c: Client, k: Queued, self: Uuid, request: nat, delay: Time)
    requires QueueOk(k) && request in c.active && Spend(c.active[request].budget, false).1
    ensures ClientShare(Retrying(c, request), Tell(k, delay, self, ToClient(RetryRequest(request))))
            == ClientShare(c, k)
  {
    TellAdds(k, delay, self, ToClient(RetryRequest(request)), Weight(c.maxRetries));
    TotalReplace(c.active, request, Retrying(c, request).active[request], LeftOf());
  }

  lemma {:induction false} RetryOrFailShare(c: Client, k: Queued, self: Uuid, request: nat, delay: Time)
    requires QueueOk(k) && request in c.active
    ensures var (c1, k1) := RetryOrFail(c, k, self, request, delay); ClientShare(c1, k1) <= ClientShare(c, k)
  {
    if Spend(c.active[request].budget, false).1 {
      RetryingShare(c, k, self, request, delay);
    } else {
      FailShare(c, k, request);
    }
  }

  lemma {:induction false} RetryKeepsLeft(c: Client, k: Queued, self: Uuid, request: nat)
    requires request in c.active
    ensures var c1 := HandleRetry(c, k, self, request).0;
            Total(c1.active, LeftOf()) == Total(c.active, LeftOf()) && c1.maxRetries == c.maxRetries
  {
    TotalReplace(c.active, request, HandleRetry(c, k, self, request).0.active[request], LeftOf());
  }

  lemma {:induction false} RetryShare(c: Client, k: Queued, self: Uuid, request: nat)
    requires QueueOk(k) && request in c.active
    ensures var (c1, k1) := HandleRetry(c, k, self, request); ClientShare(c1, k1) == ClientShare(c, k) + 5
  {
    SendAdds(c.(active := c.active - {request}), k, self, request, c.active[request].attempt.number + 1,
      Weight(c.maxRetries));
    RetryKeepsLeft(c, k, self, request);
  }

  /** Whatever the client does costs less than the event it handles was worth. */
  lemma {:induction false} ClientPays(c: Client, k: Queued, self: Uuid, e: ClientEvent, delay: Time)
    requires QueueOk(k) && c.nextRequestId !in c.active
    ensures var (c1, k1) := ProcessClient(c, k, self, e, delay);
      ClientShare(c1, k1) < ClientShare(c, k) + Weight(c.maxRetries)(ToClient(e))
  {
    match e
    case SendRequest => SendShare(c, k, self);
    case ResponseReceived(r) =>
      if r.request in c.active {
        if r.success {
          SucceedShare(c, k, r.request);
        } else {
          RetryOrFailShare(c, k, self, r.request, delay);
        }
      }
    case RequestTimeout(request, attempt) =>
      if request in c.active && c.active[request].attempt.id == attempt {
        RetryOrFailShare(c, k, self, request, delay);
      }
    case RetryRequest(request) => if request in c.active { RetryShare(c, k, self, request); }
  }

  /** The same for the server. */
  lemma {:induction false} ServerPays(s: Server, k: Queued, self: Uuid, e: ServerEvent, service: nat -> Time, max: nat)
    requires QueueOk(k)
    ensures var (s1, k1) := ProcessServer(s, k, self, e, service);
      Weighed(k1, Weight(max)) + 3 * Depth(s1) < Weighed(k, Weight(max)) + 3 * Depth(s) + Weight(max)(ToServer(e))
  {
    match e
    case ProcessRequest(a, client) => RequestAdds(s, k, self, a, client, service, Weight(max));
    case RequestCompleted(attempt, request, client) => CompleteAdds(s, k, self, attempt, request, client, Weight(max));
    case ProcessQueuedRequests =>
      assert EachCompletion(Weight(max), 3);
      QueuedWeighs(s, k, self, service, Weight(max), 3);
  }

  /** Every step uses up potential. */
  lemma {:induction false} StepPays(n: Net, l: Label)
    requires Wired(n) && RequestOk(n.client, n.k, None, n.client.nextRequestId) && Running(n)
    ensures Potential(Step(n, l)) < Potential(n)
  {
    StepWired(n, l);
    PopWired(n, l);
    PopTakes(n, l, Weight(n.client.maxRetries));
    var p, e := Advanced(n, l), NextEvent(n, l);
    match e.payload {
      case ToClient(c) => ClientPays(n.client, p.k, n.clientKey, c, l.delay);
      case ToServer(s) => ServerPays(n.server, p.k, n.serverKey, s, l.service, n.client.maxRetries);
    }
  }

  /** The system runs out of events after at most `Potential` steps, whatever happens in them. */
  lemma {:induction false} RunsDry(n: Net, ls: seq<Label>)
    requires SystemInv(n) && |ls| >= Potential(n)
    ensures !Running(Run(n, ls))
    decreases |ls|
  {
    if !Running(n) {
      StaysDry(n, ls);
    } else {
      assert RequestOk(n.client, n.k, None, n.client.nextRequestId);
      if ls == [] {
        StepPays(n, Label(0, 0, (a: nat) => 0));
      } else {
        StepPays(n, ls[0]);
        StepSystemInv(n, ls[0]);
        RunsDry(Step(n, ls[0]), ls[1..]);
      }
    }
  }

  lemma {:induction false} StaysDry(n: Net, ls: seq<Label>)
    requires Wired(n) && !Running(n)
    ensures Run(n, ls) == n
    decreases |ls|
  {
    if ls != [] {
      DryStep(n, ls[0]);
      StaysDry(n, ls[1..]);
    }
  }

  // ----- what holds at the end -----

  /** With no event left nothing is unfinished: no active request, nothing queued, every attempt answered. */
  lemma {:induction false} DryIsDone(n: Net)
    requires SystemInv(n) && !Running(n) && n.server.capacity >= 1
    ensures n.client.active == map[] && Depth(n.server) == 0 && n.server.activeThreads == 0
    ensures n.server.processed + n.server.rejected == n.client.attemptsSent
    ensures n.client.successes + n.client.failures == n.client.requestsSent
  {
    AllLive(n);
    assert n.k.events == {};
    forall r ensures r !in n.client.active {
      assert RequestOk(n.client, n.k, None, r);
    }
    assert n.client.active == map[];
  }

  // ----- the start -----

  /** A fresh client and server, and any finite number of requests to send. */
  ghost predicate Start(n: Net) {
    && QueueOk(n.k) && n.k.deferred == []
    && (forall e <- n.k.events :: e.ComponentEvent? && e.component == n.clientKey && e.payload == ToClient(SendRequest))
    && n.client == NewClient(n.serverKey, n.client.timeout, n.client.maxRetries)
    && n.server == NewServer(n.server.capacity, n.server.queue) && Depth(n.server) == 0
  }

  lemma {:induction false} SumOfEqual<T>(s: set<T>, weight: T -> nat, each: nat)
    requires forall x <- s :: weight(x) == each
    ensures Sum(s, weight) == each * |s|
    decreases |s|
  {
    if s != {} {
      var x :| x in s;
      SumRemove(s, x, weight);
      SumOfEqual(s - {x}, weight, each);
      assert each * |s| == each * |s - {x}| + each;
    }
  }

  lemma {:induction false} StartInv(n: Net)
    requires Start(n)
    ensures SystemInv(n) && Potential(n) == (6 + 6 * n.client.maxRetries) * |n.k.events|
  {
    forall r ensures RequestOk(n.client, n.k, None, r) {
      SumOfEqual(n.k.events, OnPayload(IsRetry(r)), 0);
    }
    SumOfEqual(n.k.events, OnPayload(IsRequest()), 0);
    SumOfEqual(n.k.events, OnPayload(IsCompletion()), 0);
    SumOfEqual(n.k.events, OnPayload(Weight(n.client.maxRetries)), 6 + 6 * n.client.maxRetries);
  }

  // ----- more requests between steps -----

  /** The driver schedules one more request. */
  function MoreRequests(n: Net, delay: Time): Net {
    n.(k := Tell(n.k, delay, n.clientKey, ToClient(SendRequest)))
  }

  lemma {:induction false} MoreAhead(k: Queued, delay: Time, self: Uuid, r: nat, a: nat)
    requires QueueOk(k)
    ensures var k1 := Tell(k, delay, self, ToClient(SendRequest));
            && RetriesAhead(k1, None, r) == RetriesAhead(k, None, r)
            && TimeoutsAhead(k1, None, r, a) == TimeoutsAhead(k, None, r, a)
  {
    TellAdds(k, delay, self, ToClient(SendRequest), IsRetry(r));
    TellAdds(k, delay, self, ToClient(SendRequest), IsTimeout(r, a));
  }

  lemma {:induction false} MoreBalanced(s: Server, k: Queued, delay: Time, self: Uuid, attemptsSent: nat)
    requires QueueOk(k) && RetrySystem.Balanced(s, k, None, attemptsSent)
    ensures RetrySystem.Balanced(s, Tell(k, delay, self, ToClient(SendRequest)), None, attemptsSent)
  {
    TellAdds(k, delay, self, ToClient(SendRequest), IsRequest());
    TellAdds(k, delay, self, ToClient(SendRequest), IsCompletion());
  }

  /**
   * Requests may be added between any two steps: the invariant stays, and each adds only so much to
   * the steps after which the system has run out of events.
   */
  lemma {:induction false} MoreRequestsKept(n: Net, delay: Time)
    requires SystemInv(n)
    ensures SystemInv(MoreRequests(n, delay))
    ensures Potential(MoreRequests(n, delay)) == Potential(n) + 6 + 6 * n.client.maxRetries
  {
    var r := MoreRequests(n, delay);
    TellWired(n, delay, n.clientKey, ToClient(SendRequest));
    forall x ensures RequestOk(r.client, r.k, None, x) {
      assert RequestOk(n.client, n.k, None, x);
      MoreAhead(n.k, delay, n.clientKey, x, CurrentId(n.client, x));
    }
    MoreBalanced(n.server, n.k, delay, n.clientKey, n.client.attemptsSent);
    WatchedKept(n, r);
    TellAdds(n.k, delay, n.clientKey, ToClient(SendRequest), Weight(n.client.maxRetries));
  }

  /**
   * Termination and quiescence: started with any finite number of requests, a server of capacity at
   * least 1 and an empty queue, the system has no event left after (6 + 6 * maxRetries) steps per
   * request, for any tie-breaks, delays and service times; then everything has been answered.
   */
  lemma {:induction false} SystemQuiesces(n: Net, ls: seq<Label>)
    requires Start(n) && n.server.capacity >= 1
    requires |ls| >= (6 + 6 * n.client.maxRetries) * |n.k.events|
    ensures var r := Run(n, ls);
      && !Running(r)
      && r.client.active == map[] && Depth(r.server) == 0 && r.server.activeThreads == 0
      && r.server.processed + r.server.rejected == r.client.attemptsSent
      && r.client.successes + r.client.failures == r.client.requestsSent
  {
    StartInv(n);
    RunsDry(n, ls);
    RunSystemInv(n, ls);
    CapacityKept(n, ls);
    DryIsDone(Run(n, ls));
  }

  lemma {:induction false} ServerCapacity(s: Server, k: Queued, self: Uuid, e: ServerEvent, service: nat -> Time)
    ensures ProcessServer(s, k, self, e, service).0.capacity == s.capacity
  {
    if e.ProcessQueuedRequests? {
      ProcessQueuedMoves(s, k, self, service);
    }
  }

  lemma {:induction false} ClientLimit(c: Client, k: Queued, self: Uuid, e: ClientEvent, delay: Time)
    ensures ProcessClient(c, k, self, e, delay).0.maxRetries == c.maxRetries
  {}

  lemma {:induction false} StepCapacity(n: Net, l: Label)
    requires Wired(n)
    ensures Step(n, l).server.capacity == n.server.capacity && Step(n, l).client.maxRetries == n.client.maxRetries
  {
    if Running(n) {
      StepWired(n, l);
      PopWired(n, l);
      var p, e := Advanced(n, l), NextEvent(n, l);
      match e.payload {
        case ToClient(c) => ClientLimit(n.client, p.k, n.clientKey, c, l.delay);
        case ToServer(s) => ServerCapacity(n.server, p.k, n.serverKey, s, l.service);
      }
    } else {
      DryStep(n, l);
    }
  }

  lemma {:induction false} CapacityKept(n: Net, ls: seq<Label>)
    requires Wired(n)
    ensures Run(n, ls).server.capacity == n.server.capacity
    decreases |ls|
  {
    if ls != [] {
      StepCapacity(n, ls[0]);
      StepWired(n, ls[0]);
      CapacityKept(Step(n, ls[0]), ls[1..]);
    }
  }

  /** Retry amplification: at most 1 + maxRetries attempts for each request sent, at any time. */
  lemma {:induction false} AmplificationIsBounded(n: Net)
    requires SystemInv(n)
    ensures n.client.attemptsSent <= (1 + n.client.maxRetries) * n.client.requestsSent
  {
    TimesIsProduct(1 + n.client.maxRetries, n.client.requestsSent);
  }

  ghost predicate Awakens(e: Event, clientKey: Uuid, r: nat, attempt: nat) {
    && e.ComponentEvent? && e.component == clientKey
    && (e.payload == ToClient(RetryRequest(r)) || e.payload == ToClient(RequestTimeout(r, attempt)))
  }

  /** No active request is stuck: its retry is scheduled, or the timeout of its current attempt is. */
  lemma {:induction false} NoStuckRequest(n: Net, r: nat)
    requires SystemInv(n) && r in n.client.active
    ensures exists e <- n.k.events :: Awakens(e, n.clientKey, r, n.client.active[r].attempt.id)
  {
    assert RequestOk(n.client, n.k, None, r);
    var a := n.client.active[r].attempt.id;
    if Weighed(n.k, IsRetry(r)) > 0 {
      SumPositive(n.k.events, OnPayload(IsRetry(r)));
    } else {
      SumPositive(n.k.events, OnPayload(IsTimeout(r, a)));
    }
    var e :| e in n.k.events && (OnPayload(IsRetry(r))(e) > 0 || OnPayload(IsTimeout(r, a))(e) > 0);
    assert Addressed(n, e) && Awakens(e, n.clientKey, r, a);
  }

  // ----- attempt numbers -----

  /** The step schedules a request to the server for attempt a. */
  ghost predicate Sends(n: Net, l: Label, a: Attempt) {
    exists e <- Step(n, l).k.events :: e !in n.k.events && e.ComponentEvent?
      && e.payload == ToServer(ProcessRequest(a, n.clientKey))
  }

  /** The number of the request's current attempt; 0 before the first. */
  function NumberOf(c: Client, r: nat): nat {
    if r in c.active then c.active[r].attempt.number else 0
  }

  /** An id that was used for a request that has ended. */
  predicate Ended(c: Client, r: nat) {
    r < c.nextRequestId && r !in c.active
  }

  lemma {:induction false} SendEvents(c: Client, k: Queued, self: Uuid, request: nat, number: nat, e: Event)
    requires e in SendAttempt(c, k, self, request, number).1.events && e !in k.events && e.ComponentEvent?
             && e.payload.ToServer?
    ensures e.payload == ToServer(ProcessRequest(Attempt(c.nextAttemptId, request, number, k.clock), self))
  {}

  lemma {:induction false} QueuedEvents(s: Server, k: Queued, self: Uuid, service: nat -> Time, e: Event)
    requires e in ProcessQueued(s, k, self, service).1.events && e !in k.events
    ensures e.ComponentEvent? && e.payload.ToServer? && e.payload.s.RequestCompleted?
    decreases Depth(s)
  {
    if HasCapacity(s) && Depth(s) > 0 {
      var (s2, k2) := StartNext(s, k, self, service);
      if e !in k2.events {
        QueuedEvents(s2, k2, self, service, e);
      }
    }
  }

  lemma {:induction false} ServerSendsNothing(
      s: Server, k: Queued, self: Uuid, x: ServerEvent, service: nat -> Time, e: Event)
    requires e in ProcessServer(s, k, self, x, service).1.events && e !in k.events
    ensures e.ComponentEvent? && (e.payload.ToServer? ==> !e.payload.s.ProcessRequest?)
  {
    if x.ProcessQueuedRequests? {
      QueuedEvents(s, k, self, service, e);
    }
  }

  /** A new attempt continues its request's numbering, from 1, and stays within the limit. */
  lemma {:induction false} AttemptsAreNumbered(n: Net, l: Label, a: Attempt)
    requires SystemInv(n) && Sends(n, l, a)
    ensures Running(n) && a.id == n.client.nextAttemptId && !Ended(n.client, a.request)
    ensures a.number == NumberOf(n.client, a.request) + 1 <= 1 + n.client.maxRetries
    ensures NumberOf(Step(n, l).client, a.request) == a.number
  {
    var e :| e in Step(n, l).k.events && e !in n.k.events && e.ComponentEvent?
      && e.payload == ToServer(ProcessRequest(a, n.clientKey));
    StepWired(n, l);
    PopWired(n, l);
    AllLive(n);
    var p, x := Advanced(n, l), NextEvent(n, l);
    match x.payload {
      case ToServer(s) => ServerSendsNothing(n.server, p.k, n.serverKey, s, l.service, e);
      case ToClient(c) =>
        var r := if c.RetryRequest? then c.request else n.client.nextRequestId;
        assert RequestOk(n.client, n.k, None, r);
        RequestPopped(n, l, r);
        ClientSends(n.client, p.k, n.clientKey, c, l.delay, a, e);
    }
  }

  lemma {:induction false} ClientSends(
      c: Client, k: Queued, self: Uuid, x: ClientEvent, delay: Time, a: Attempt, e: Event)
    requires e in ProcessClient(c, k, self, x, delay).1.events && e !in k.events && e.ComponentEvent?
             && e.payload == ToServer(ProcessRequest(a, self))
    requires RequestOk(c, k, Some(ToClient(x)), if x.RetryRequest? then x.request else c.nextRequestId)
    ensures a.id == c.nextAttemptId && !Ended(c, a.request)
    ensures a.number == NumberOf(c, a.request) + 1 <= 1 + c.maxRetries
    ensures NumberOf(ProcessClient(c, k, self, x, delay).0, a.request) == a.number
  {
    match x
    case SendRequest => SendEvents(c.(nextRequestId := c.nextRequestId + 1), k, self, c.nextRequestId, 1, e);
    case RetryRequest(request) =>
      if request in c.active {
        SendEvents(c.(active := c.active - {request}), k, self, request, c.active[request].attempt.number + 1, e);
      }
    case _ =>
  }

  /** The client's event makes it send an attempt of request r. */
  predicate SendsFor(c: Client, x: ClientEvent, r: nat) {
    (x.SendRequest? && r == c.nextRequestId) || (x.RetryRequest? && x.request == r && r in c.active)
  }

  lemma {:induction false} ClientKeepsNumber(c: Client, k: Queued, self: Uuid, x: ClientEvent, delay: Time, r: nat)
    requires !SendsFor(c, x, r) && (r in c.active ==> r < c.nextRequestId)
    ensures var c1 := ProcessClient(c, k, self, x, delay).0;
      (NumberOf(c1, r) == NumberOf(c, r) || Ended(c1, r)) && (Ended(c, r) ==> Ended(c1, r))
  {}

  lemma {:induction false} SendSchedules(c: Client, k: Queued, self: Uuid, x: ClientEvent, delay: Time, r: nat)
    returns (a: Attempt, e: Event)
    requires SendsFor(c, x, r)
    ensures a.request == r && e.ComponentEvent? && e.eventId == k.nextEvent + 2
    ensures e.payload == ToServer(ProcessRequest(a, self)) && e in ProcessClient(c, k, self, x, delay).1.events
  {
    a := Attempt(c.nextAttemptId, r, if x.SendRequest? then 1 else c.active[r].attempt.number + 1, k.clock);
    e := Kernel.ComponentEvent(k.nextEvent + 2, Plus(k.clock, 0), c.server, ToServer(ProcessRequest(a, self)));
  }

  lemma {:induction false} SendingShows(n: Net, l: Label, x: ClientEvent, r: nat)
    requires Wired(n) && Running(n) && NextEvent(n, l).payload == ToClient(x) && SendsFor(n.client, x, r)
    ensures exists a :: Sends(n, l, a) && a.request == r
  {
    StepWired(n, l);
    PopWired(n, l);
    var p := Advanced(n, l);
    var a, e := SendSchedules(n.client, p.k, n.clientKey, x, l.delay, r);
    assert e in Step(n, l).k.events && e !in n.k.events;
    assert Sends(n, l, a);
  }

  /** A step that sends nothing for r leaves r's number alone, or ends r; an ended request stays ended. */
  lemma {:induction false} OtherStepsKeepNumber(n: Net, l: Label, r: nat)
    requires Wired(n) && RequestOk(n.client, n.k, None, r) && !exists a :: Sends(n, l, a) && a.request == r
    ensures var c := Step(n, l).client;
      (NumberOf(c, r) == NumberOf(n.client, r) || Ended(c, r)) && (Ended(n.client, r) ==> Ended(c, r))
  {
    if Running(n) {
      StepWired(n, l);
      PopWired(n, l);
      var p, x := Advanced(n, l), NextEvent(n, l);
      if x.payload.ToClient? {
        if SendsFor(n.client, x.payload.c, r) {
          SendingShows(n, l, x.payload.c, r);
        } else {
          ClientKeepsNumber(n.client, p.k, n.clientKey, x.payload.c, l.delay, r);
        }
      }
    } else {
      DryStep(n, l);
    }
  }

  /** The numbers of the attempts a run sends for request r, in order. */
  ghost function Numbers(n: Net, ls: seq<Label>, r: nat): seq<nat>
    decreases |ls|
  {
    if ls == [] then []
    else
      var rest := Numbers(Step(n, ls[0]), ls[1..], r);
      if exists a :: Sends(n, ls[0], a) && a.request == r then
        var a :| Sends(n, ls[0], a) && a.request == r;
        [a.number] + rest
      else rest
  }

  predicate CountsUp(s: seq<nat>, from: nat) {
    forall i :: 0 <= i < |s| ==> s[i] == from + i
  }

  lemma {:induction false} CountsUpCons(x: nat, s: seq<nat>)
    requires CountsUp(s, x + 1)
    ensures CountsUp([x] + s, x)
  {}

  /** One step, seen from request r: it sends the next attempt of r, or none. */
  lemma {:induction false} NumberStep(n: Net, l: Label, r: nat)
    requires SystemInv(n)
    ensures forall a :: Sends(n, l, a) && a.request == r ==>
      a.number == NumberOf(n.client, r) + 1 <= 1 + n.client.maxRetries && NumberOf(Step(n, l).client, r) == a.number
        && !Ended(n.client, r)
    ensures (!exists a :: Sends(n, l, a) && a.request == r) ==>
      var c := Step(n, l).client;
        (NumberOf(c, r) == NumberOf(n.client, r) || Ended(c, r)) && (Ended(n.client, r) ==> Ended(c, r))
    ensures Step(n, l).client.maxRetries == n.client.maxRetries
  {
    StepCapacity(n, l);
    forall a | Sends(n, l, a) && a.request == r
      ensures a.number == NumberOf(n.client, r) + 1 <= 1 + n.client.maxRetries
              && NumberOf(Step(n, l).client, r) == a.number && !Ended(n.client, r)
    {
      AttemptsAreNumbered(n, l, a);
    }
    if !exists a :: Sends(n, l, a) && a.request == r {
      assert RequestOk(n.client, n.k, None, r);
      OtherStepsKeepNumber(n, l, r);
    }
  }

  /** What the numbers sent for r look like from a state on. */
  ghost predicate Numbered(c: Client, r: nat, s: seq<nat>) {
    && (Ended(c, r) ==> s == [])
    && CountsUp(s, NumberOf(c, r) + 1)
    && (s != [] ==> NumberOf(c, r) + |s| <= 1 + c.maxRetries)
  }

  lemma {:induction false} NumberedStep(c: Client, c1: Client, r: nat, s: seq<nat>, sent: Option<nat>)
    requires Numbered(c1, r, s) && c1.maxRetries == c.maxRetries
    requires sent.Some? ==>
             sent.value == NumberOf(c, r) + 1 <= 1 + c.maxRetries && NumberOf(c1, r) == sent.value && !Ended(c, r)
    requires sent.None? ==> (NumberOf(c1, r) == NumberOf(c, r) || Ended(c1, r)) && (Ended(c, r) ==> Ended(c1, r))
    ensures Numbered(c, r, if sent.Some? then [sent.value] + s else s)
  {
    if sent.Some? {
      CountsUpCons(sent.value, s);
    }
  }

  /**
   * In every run a request sends attempts numbered 1, 2, 3, ..., at most 1 + maxRetries of them, and
   * none once it has ended.
   */
  lemma {:induction false} AttemptsCountUp(n: Net, ls: seq<Label>, r: nat)
    requires SystemInv(n)
    ensures Numbered(n.client, r, Numbers(n, ls, r))
    decreases |ls|
  {
    if ls != [] {
      NumberStep(n, ls[0], r);
      StepSystemInv(n, ls[0]);
      AttemptsCountUp(Step(n, ls[0]), ls[1..], r);
      NumbersCons(n, ls, r);
    }
  }

  lemma {:induction false} NumbersCons(n: Net, ls: seq<Label>, r: nat)
    requires ls != []
    requires var l, c := ls[0], Step(n, ls[0]).client;
      && (forall a :: Sends(n, l, a) && a.request == r ==>
            a.number == NumberOf(n.client, r) + 1 <= 1 + n.client.maxRetries && NumberOf(c, r) == a.number
              && !Ended(n.client, r))
      && ((!exists a :: Sends(n, l, a) && a.request == r) ==>
            (NumberOf(c, r) == NumberOf(n.client, r) || Ended(c, r)) && (Ended(n.client, r) ==> Ended(c, r)))
      && c.maxRetries == n.client.maxRetries
      && Numbered(c, r, Numbers(Step(n, l), ls[1..], r))
    ensures Numbered(n.client, r, Numbers(n, ls, r))
  {
    var l := ls[0];
    var rest := Numbers(Step(n, l), ls[1..], r);
    if exists a :: Sends(n, l, a) && a.request == r {
      NumberedStep(n.client, Step(n, l).client, r, rest, Some(NumberOf(n.client, r) + 1));
    } else {
      NumberedStep(n.client, Step(n, l).client, r, rest, None);
    }
  }
}
