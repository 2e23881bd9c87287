/**
 * Attempts one by one: each gets exactly one response, waits its turn, and times out exactly when it
 * should, and a server rejects only what it has no room for.
 */
module RetryAttempts {
  import opened SimTime
  import opened Options
  import opened Ids
  import opened Vectors
  import opened KernelInvariants
  import opened RetryPolicies
  import opened Queues
  import opened ClientServer
  import opened RetrySystem
  import opened Quiescence
  import Kernel

  // ----- one response for each attempt -----

  /** The message carries attempt a of request r to the server, through a thread, or back as a response. */
  function Carries(a: nat, r: nat): Msg -> nat {
    (m: Msg) =>
      match m
      case ToServer(ProcessRequest(attempt, _)) => if attempt.id == a && attempt.request == r then 1 else 0
      case ToServer(RequestCompleted(attempt, request, _)) => if attempt == a && request == r then 1 else 0
      case ToClient(ResponseReceived(response)) => if response.attempt == a && response.request == r then 1 else 0
      case _ => 0
  }

  /** How often attempt a of request r waits in the queue. */
  function Waiting(items: seq<Item>, a: nat, r: nat): nat {
    if items == [] then 0
    else
      (if items[0].attempt.id == a && items[0].attempt.request == r then 1 else 0) + Waiting(items[1..], a, r)
  }

  function WaitingAt(s: Server, a: nat, r: nat): nat {
    if s.queue.Some? then Waiting(s.queue.value.items, a, r) else 0
  }

  /** Where attempt a of request r is under way: in a message, or in the server's queue. */
  ghost function UnderWay(n: Net, a: nat, r: nat): nat {
    Weighed(n.k, Carries(a, r)) + WaitingAt(n.server, a, r)
  }

  lemma {:induction false} WaitingConcat(x: seq<Item>, y: seq<Item>, a: nat, r: nat)
    ensures Waiting(x + y, a, r) == Waiting(x, a, r) + Waiting(y, a, r)
    decreases |x|
  {
    if x == [] {
      assert x + y == y;
    } else {
      TailOfConcat(x, y);
      WaitingConcat(x[1..], y, a, r);
    }
  }

  lemma {:induction false} WaitingOne(i: Item, a: nat, r: nat)
    ensures Waiting([i], a, r) == if i.attempt.id == a && i.attempt.request == r then 1 else 0
  {
    assert [i][1..] == [];
  }

  /** A departure takes one item from what waits. */
  lemma {:induction false} DequeueTakes(q: Queue, a: nat, r: nat)
    requires q.items != []
    ensures var (rest, item) := Dequeue(q);
            && item.Some?
            && Waiting(q.items, a, r) == Waiting(rest.items, a, r) + Waiting([item.value], a, r)
  {
    var i := Next(q);
    assert q.items == q.items[..i] + ([q.items[i]] + q.items[i + 1..]);
    WaitingConcat(q.items[..i], [q.items[i]] + q.items[i + 1..], a, r);
    WaitingConcat([q.items[i]], q.items[i + 1..], a, r);
    WaitingConcat(q.items[..i], q.items[i + 1..], a, r);
  }

  lemma {:induction false} StartNextCarries(s: Server, k: Queued, self: Uuid, service: nat -> Time, a: nat, r: nat)
    requires QueueOk(k) && Depth(s) > 0
    ensures var (s1, k1) := StartNext(s, k, self, service);
            && QueueOk(k1)
            && Weighed(k1, Carries(a, r)) + WaitingAt(s1, a, r) == Weighed(k, Carries(a, r)) + WaitingAt(s, a, r)
  {
    var (q, item) := Dequeue(s.queue.value);
    var client := if item.value.client.Some? then item.value.client.value else NIL;
    DequeueTakes(s.queue.value, a, r);
    WaitingOne(item.value, a, r);
    TellAdds(k, service(item.value.attempt.id), self,
      ToServer(RequestCompleted(item.value.attempt.id, item.value.attempt.request, client)), Carries(a, r));
  }

  lemma {:induction false} ProcessQueuedCarries(s: Server, k: Queued, self: Uuid, service: nat -> Time, a: nat, r: nat)
    requires QueueOk(k)
    ensures var (s1, k1) := ProcessQueued(s, k, self, service);
            && QueueOk(k1)
            && Weighed(k1, Carries(a, r)) + WaitingAt(s1, a, r) == Weighed(k, Carries(a, r)) + WaitingAt(s, a, r)
    decreases Depth(s)
  {
    if HasCapacity(s) && Depth(s) > 0 {
      var (s2, k2) := StartNext(s, k, self, service);
      StartNextCarries(s, k, self, service, a, r);
      ProcessQueuedCarries(s2, k2, self, service, a, r);
    }
  }

  lemma {:induction false} RequestCarries(
      s: Server, k: Queued, self: Uuid, x: Attempt, client: Uuid, service: nat -> Time, a: nat, r: nat)
    requires QueueOk(k)
    ensures var (s1, k1) := HandleRequest(s, k, self, x, client, service);
            Weighed(k1, Carries(a, r)) + WaitingAt(s1, a, r)
            == Weighed(k, Carries(a, r)) + WaitingAt(s, a, r) + Carries(a, r)(ToServer(ProcessRequest(x, client)))
  {
    RequestAdds(s, k, self, x, client, service, Carries(a, r));
    if s.queue.Some? {
      var item := Item(x, k.clock, 0, Some(client));
      WaitingConcat(s.queue.value.items, [item], a, r);
      WaitingOne(item, a, r);
    }
  }

  /** The server hands attempts on, none lost, none twice, until it answers. */
  lemma {:induction false} ServerCarries(
      s: Server, k: Queued, self: Uuid, e: ServerEvent, service: nat -> Time, a: nat, r: nat)
    requires QueueOk(k)
    ensures var (s1, k1) := ProcessServer(s, k, self, e, service);
            Weighed(k1, Carries(a, r)) + WaitingAt(s1, a, r)
            == Weighed(k, Carries(a, r)) + WaitingAt(s, a, r) + Carries(a, r)(ToServer(e))
  {
    match e
    case ProcessRequest(x, client) => RequestCarries(s, k, self, x, client, service, a, r);
    case RequestCompleted(attempt, request, client) =>
      CompleteAdds(s, k, self, attempt, request, client, Carries(a, r));
    case ProcessQueuedRequests => ProcessQueuedCarries(s, k, self, service, a, r);
  }

  /** The client's event sends attempt a of request r. */
  predicate SendsAs(c: Client, e: ClientEvent, a: nat, r: nat) {
    SendsFor(c, e, r) && a == c.nextAttemptId
  }

  lemma {:induction false} ClientCarries(c: Client, k: Queued, self: Uuid, e: ClientEvent, delay: Time, a: nat, r: nat)
    requires QueueOk(k)
    ensures var (c1, k1) := ProcessClient(c, k, self, e, delay);
            Weighed(k1, Carries(a, r)) == Weighed(k, Carries(a, r)) + One(SendsAs(c, e, a, r))
  {
    match e
    case SendRequest => FirstSendCarries(c, k, self, a, r);
    case ResponseReceived(response) =>
      if response.request in c.active { FailureCarries(c, k, self, response.request, delay, a, r); }
    case RequestTimeout(request, _) =>
      if request in c.active { FailureCarries(c, k, self, request, delay, a, r); }
    case RetryRequest(request) =>
      if request in c.active { ResendCarries(c, k, self, request, a, r); }
  }

  lemma {:induction false} FirstSendCarries(c: Client, k: Queued, self: Uuid, a: nat, r: nat)
    requires QueueOk(k)
    ensures Weighed(HandleSend(c, k, self).1, Carries(a, r))
         == Weighed(k, Carries(a, r)) + One(c.nextRequestId == r && a == c.nextAttemptId)
  {
    SendCarries(c.(nextRequestId := c.nextRequestId + 1), k, self, c.nextRequestId, 1, a, r);
  }

  lemma {:induction false} ResendCarries(c: Client, k: Queued, self: Uuid, request: nat, a: nat, r: nat)
    requires QueueOk(k) && request in c.active
    ensures Weighed(HandleRetry(c, k, self, request).1, Carries(a, r))
         == Weighed(k, Carries(a, r)) + One(request == r && a == c.nextAttemptId)
  {
    SendCarries(c.(active := c.active - {request}), k, self, request, c.active[request].attempt.number + 1, a, r);
  }

  lemma {:induction false} SendCarries(c: Client, k: Queued, self: Uuid, request: nat, number: nat, a: nat, r: nat)
    requires QueueOk(k)
    ensures var k1 := SendAttempt(c, k, self, request, number).1;
            Weighed(k1, Carries(a, r)) == Weighed(k, Carries(a, r)) + One(request == r && a == c.nextAttemptId)
  {
    SendAdds(c, k, self, request, number, Carries(a, r));
  }

  lemma {:induction false} FailureCarries(
      c: Client, k: Queued, self: Uuid, request: nat, delay: Time, a: nat, r: nat)
    requires QueueOk(k) && request in c.active
    ensures Weighed(RetryOrFail(c, k, self, request, delay).1, Carries(a, r)) == Weighed(k, Carries(a, r))
  {
    TellAdds(k, delay, self, ToClient(RetryRequest(request)), Carries(a, r));
  }

  /** The step sends attempt a of request r. */
  ghost predicate SentBy(n: Net, l: Label, a: nat, r: nat) {
    && Running(n) && NextEvent(n, l).ComponentEvent? && NextEvent(n, l).payload.ToClient?
    && SendsAs(n.client, NextEvent(n, l).payload.c, a, r)
  }

  /** The client receives a response to attempt a of request r in the step. */
  ghost predicate AnsweredBy(n: Net, l: Label, a: nat, r: nat) {
    && Running(n) && NextEvent(n, l).ComponentEvent? && NextEvent(n, l).payload.ToClient?
    && NextEvent(n, l).payload.c.ResponseReceived?
    && NextEvent(n, l).payload.c.response.attempt == a && NextEvent(n, l).payload.c.response.request == r
  }

  function One(b: bool): nat { if b then 1 else 0 }

  /** One step: an attempt starts its way only by being sent, and ends it only by its response. */
  lemma {:induction false} StepCarries(n: Net, l: Label, a: nat, r: nat)
    requires Wired(n)
    ensures UnderWay(Step(n, l), a, r) + One(AnsweredBy(n, l, a, r)) == UnderWay(n, a, r) + One(SentBy(n, l, a, r))
  {
    if Running(n) {
      StepWired(n, l);
      PopWired(n, l);
      PopTakes(n, l, Carries(a, r));
      var p, e := Advanced(n, l), NextEvent(n, l);
      match e.payload {
        case ToClient(c) => ClientCarries(n.client, p.k, n.clientKey, c, l.delay, a, r);
        case ToServer(s) => ServerCarries(n.server, p.k, n.serverKey, s, l.service, a, r);
      }
    } else {
      DryStep(n, l);
    }
  }

  /** How often a run sends attempt a of request r. */
  ghost function SentIn(n: Net, ls: seq<Label>, a: nat, r: nat): nat
    decreases |ls|
  {
    if ls == [] then 0 else One(SentBy(n, ls[0], a, r)) + SentIn(Step(n, ls[0]), ls[1..], a, r)
  }

  /** How many responses to it the client receives. */
  ghost function AnsweredIn(n: Net, ls: seq<Label>, a: nat, r: nat): nat
    decreases |ls|
  {
    if ls == [] then 0 else One(AnsweredBy(n, ls[0], a, r)) + AnsweredIn(Step(n, ls[0]), ls[1..], a, r)
  }

  /** Along every run: what was sent has been answered or is under way. */
  lemma {:induction false} AttemptsConserved(n: Net, ls: seq<Label>, a: nat, r: nat)
    requires Wired(n)
    ensures UnderWay(Run(n, ls), a, r) + AnsweredIn(n, ls, a, r) == UnderWay(n, a, r) + SentIn(n, ls, a, r)
    decreases |ls|
  {
    if ls != [] {
      StepCarries(n, ls[0], a, r);
      StepWired(n, ls[0]);
      AttemptsConserved(Step(n, ls[0]), ls[1..], a, r);
    }
  }

  lemma {:induction false} IdsAdvance(n: Net, l: Label)
    requires Wired(n)
    ensures Step(n, l).client.nextAttemptId >= n.client.nextAttemptId
    ensures forall a, r :: SentBy(n, l, a, r) ==> a == n.client.nextAttemptId < Step(n, l).client.nextAttemptId
  {
    if Running(n) {
      StepWired(n, l);
      PopWired(n, l);
    } else {
      DryStep(n, l);
    }
  }

  /** An attempt id is used at most once, and never again once the counter has passed it. */
  lemma {:induction false} SentOnce(n: Net, ls: seq<Label>, a: nat, r: nat)
    requires Wired(n)
    ensures SentIn(n, ls, a, r) <= 1
    ensures a < n.client.nextAttemptId ==> SentIn(n, ls, a, r) == 0
    decreases |ls|
  {
    if ls != [] {
      IdsAdvance(n, ls[0]);
      StepWired(n, ls[0]);
      SentOnce(Step(n, ls[0]), ls[1..], a, r);
    }
  }

  lemma {:induction false} NothingUnderWay(n: Net, a: nat, r: nat)
    requires Start(n) || (n.k.events == {} && Depth(n.server) == 0)
    ensures UnderWay(n, a, r) == 0
  {
    SumOfEqual(n.k.events, OnPayload(Carries(a, r)), 0);
  }

  /**
   * From a start with any requests to send: at any time an attempt has at most one response, and
   * none that was not sent; when the system has run dry every attempt has exactly one.
   */
  lemma {:induction false} EachAttemptIsAnsweredOnce(n: Net, ls: seq<Label>, a: nat, r: nat)
    requires Start(n)
    ensures AnsweredIn(n, ls, a, r) <= SentIn(n, ls, a, r) <= 1
    ensures n.server.capacity >= 1 && !Running(Run(n, ls)) ==> AnsweredIn(n, ls, a, r) == SentIn(n, ls, a, r)
  {
    StartInv(n);
    AttemptsConserved(n, ls, a, r);
    SentOnce(n, ls, a, r);
    NothingUnderWay(n, a, r);
    if n.server.capacity >= 1 && !Running(Run(n, ls)) {
      RunSystemInv(n, ls);
      CapacityKept(n, ls);
      DryIsDone(Run(n, ls));
      AllLive(Run(n, ls));
      NothingUnderWay(Run(n, ls), a, r);
    }
  }

  // ----- what the counters count -----

  /** The step delivers the message to the client. */
  ghost predicate Delivers(n: Net, l: Label, m: ClientEvent) {
    Running(n) && NextEvent(n, l).ComponentEvent? && NextEvent(n, l).payload == ToClient(m)
  }

  /** A response, of the given outcome, to an active request. */
  ghost predicate Answers(n: Net, l: Label, r: nat, success: bool) {
    && r in n.client.active
    && exists a: nat :: Delivers(n, l, ResponseReceived(Response(a, r, success)))
  }

  /** A failed response to the active request, or the timeout of its current attempt. */
  ghost predicate AttemptFails(n: Net, l: Label, r: nat) {
    Answers(n, l, r, false)
    || (r in n.client.active && Delivers(n, l, RequestTimeout(r, n.client.active[r].attempt.id)))
  }

  /** Of an active request with no retry left: it has failed for good. */
  ghost predicate RequestFails(n: Net, l: Label, r: nat) {
    AttemptFails(n, l, r) && !MayRetry(n.client.active[r])
  }

  /**
   * What each step does to each request: a success ends it as a success; a failure of its current
   * attempt uses up a retry, or ends it as a failure when there is none left; nothing else does.
   */
  lemma {:induction false} RequestOutcome(n: Net, l: Label, r: nat)
    requires Wired(n) && r in n.client.active && r < n.client.nextRequestId
    ensures var c := Step(n, l).client;
            && (r in c.active <==> !Answers(n, l, r, true) && !RequestFails(n, l, r))
            && (Answers(n, l, r, true) ==> c.successes == n.client.successes + 1 && c.failures == n.client.failures)
            && (RequestFails(n, l, r) ==> c.failures == n.client.failures + 1 && c.successes == n.client.successes)
            && (r in c.active ==>
                  c.active[r].budget.current == n.client.active[r].budget.current + One(AttemptFails(n, l, r)))
  {
    if Running(n) {
      StepWired(n, l);
      PopWired(n, l);
      if NextEvent(n, l).payload.ToClient? {
        var x := NextEvent(n, l).payload.c;
        AnswersIf(n, l, x, r, true);
        AnswersIf(n, l, x, r, false);
        ClientOutcome(n.client, Advanced(n, l).k, n.clientKey, x, l.delay, r);
      }
    } else {
      DryStep(n, l);
    }
  }

  predicate IsAnswer(x: ClientEvent, r: nat, success: bool) {
    x.ResponseReceived? && x.response.request == r && x.response.success == success
  }

  lemma {:induction false} AnswersIf(n: Net, l: Label, x: ClientEvent, r: nat, success: bool)
    requires Delivers(n, l, x) && r in n.client.active
    ensures Answers(n, l, r, success) <==> IsAnswer(x, r, success)
  {
    if IsAnswer(x, r, success) {
      assert Delivers(n, l, ResponseReceived(Response(x.response.attempt, r, success)));
    }
  }

  lemma {:induction false} ClientOutcome(c: Client, k: Queued, self: Uuid, x: ClientEvent, delay: Time, r: nat)
    requires r in c.active && r < c.nextRequestId
    ensures var d := ProcessClient(c, k, self, x, delay).0;
            var fails := IsAnswer(x, r, false) || x == RequestTimeout(r, c.active[r].attempt.id);
            && (r in d.active <==> !IsAnswer(x, r, true) && !(fails && !MayRetry(c.active[r])))
            && (IsAnswer(x, r, true) ==> d.successes == c.successes + 1 && d.failures == c.failures)
            && (fails && !MayRetry(c.active[r]) ==> d.failures == c.failures + 1 && d.successes == c.successes)
            && (r in d.active ==> d.active[r].budget.current == c.active[r].budget.current + One(fails))
  {}

  /** The totals move only with such an outcome, with a new request, with an attempt sent, and with a completion. */
  lemma {:induction false} TotalsCount(n: Net, l: Label)
    requires Wired(n)
    ensures var c, d := n.client, Step(n, l).client;
            && d.requestsSent == c.requestsSent + One(Delivers(n, l, SendRequest))
            && d.nextRequestId == c.nextRequestId + One(Delivers(n, l, SendRequest))
            && d.attemptsSent - c.attemptsSent == d.nextAttemptId - c.nextAttemptId
            && d.attemptsSent == c.attemptsSent
                 + One(Delivers(n, l, SendRequest) || exists r <- c.active :: Delivers(n, l, RetryRequest(r)))
            && (d.successes != c.successes ==> exists r <- c.active :: Answers(n, l, r, true))
            && (d.failures != c.failures ==> exists r <- c.active :: RequestFails(n, l, r))
    ensures Step(n, l).server.processed == n.server.processed
              + One(Running(n) && NextEvent(n, l).ComponentEvent? && NextEvent(n, l).payload.ToServer?
                    && NextEvent(n, l).payload.s.RequestCompleted?)
  {
    if Running(n) {
      StepWired(n, l);
      PopWired(n, l);
      ProcessQueuedMoves(n.server, Advanced(n, l).k, n.serverKey, l.service);
      var e := NextEvent(n, l);
      if e.payload.ToClient? {
        ClientTotals(n, l, e.payload.c);
      }
    } else {
      DryStep(n, l);
    }
  }

  lemma {:induction false} ClientTotals(n: Net, l: Label, x: ClientEvent)
    requires Wired(n) && Delivers(n, l, x)
    ensures var c, d := n.client, ProcessClient(n.client, Advanced(n, l).k, n.clientKey, x, l.delay).0;
            && d.requestsSent == c.requestsSent + One(x == SendRequest)
            && d.nextRequestId == c.nextRequestId + One(x == SendRequest)
            && d.attemptsSent - c.attemptsSent == d.nextAttemptId - c.nextAttemptId
            && d.attemptsSent == c.attemptsSent
                 + One(x == SendRequest || exists r <- c.active :: Delivers(n, l, RetryRequest(r)))
            && (d.successes != c.successes ==> exists r <- c.active :: Answers(n, l, r, true))
            && (d.failures != c.failures ==> exists r <- c.active :: RequestFails(n, l, r))
  {
    match x
    case SendRequest =>
    case ResponseReceived(y) =>
      assert Delivers(n, l, ResponseReceived(Response(y.attempt, y.request, y.success)));
      assert y.request in n.client.active ==> Answers(n, l, y.request, y.success);
      assert y.request in n.client.active && !y.success && !MayRetry(n.client.active[y.request]) ==>
          RequestFails(n, l, y.request);
    case RequestTimeout(request, attempt) =>
      if request in n.client.active && n.client.active[request].attempt.id == attempt {
        assert !MayRetry(n.client.active[request]) ==> RequestFails(n, l, request);
      }
    case RetryRequest(request) =>
      assert request in n.client.active ==> Delivers(n, l, RetryRequest(request));
  }

  // ----- the order of service -----

  /** The entry of a started attempt. */
  function CompletionOf(i: Item, id: nat, clock: Time, self: Uuid, service: nat -> Time): Event {
    Kernel.ComponentEvent(id, Saturate(clock + service(i.attempt.id)), self,
      ToServer(RequestCompleted(i.attempt.id, i.attempt.request, if i.client.Some? then i.client.value else NIL)))
  }

  ghost function Completions(items: seq<Item>, last: nat, clock: Time, self: Uuid, service: nat -> Time): set<Event> {
    set i: nat | i < |items| :: CompletionOf(items[i], last + 1 + i, clock, self, service)
  }

  lemma {:induction false} CompletionsFirst(items: seq<Item>, last: nat, clock: Time, self: Uuid, service: nat -> Time)
    requires items != []
    ensures Completions(items, last, clock, self, service)
         == {CompletionOf(items[0], last + 1, clock, self, service)}
            + Completions(items[1..], last + 1, clock, self, service)
  {
    var all := Completions(items, last, clock, self, service);
    var rest := Completions(items[1..], last + 1, clock, self, service);
    forall e <- all ensures e == CompletionOf(items[0], last + 1, clock, self, service) || e in rest {
      var i: nat :| i < |items| && e == CompletionOf(items[i], last + 1 + i, clock, self, service);
      if i > 0 {
        assert e == CompletionOf(items[1..][i - 1], last + 1 + 1 + (i - 1), clock, self, service);
      }
    }
    forall e <- rest ensures e in all {
      var i: nat :| i < |items[1..]| && e == CompletionOf(items[1..][i], last + 1 + 1 + i, clock, self, service);
      assert e == CompletionOf(items[i + 1], last + 1 + (i + 1), clock, self, service);
    }
    assert CompletionOf(items[0], last + 1 + 0, clock, self, service) in all;
  }

  /** How many waiting attempts a look at the queue starts: as many as there are free threads and items. */
  function Startable(s: Server): nat {
    if !HasCapacity(s) then 0
    else if Depth(s) <= s.capacity - s.activeThreads then Depth(s)
    else s.capacity - s.activeThreads
  }

  /** From (s, k) to (s1, k1) the first n waiting attempts were started, in order. */
  ghost predicate Started(s: Server, k: Queued, s1: Server, k1: Queued, n: nat, self: Uuid, service: nat -> Time) {
    && s.queue.Some? && s1.queue.Some? && n <= |s.queue.value.items|
    && s1.queue.value.items == s.queue.value.items[n..] && s1.activeThreads == s.activeThreads + n
    && k1.events == k.events + Completions(s.queue.value.items[..n], k.nextEvent, k.clock, self, service)
    && k1.nextEvent == k.nextEvent + n && k1.clock == k.clock
  }

  /**
   * A look at a first-in-first-out queue starts exactly so many attempts as there are free threads
   * and items, from the front, each completing after its own service time.
   */
  lemma {:induction false} StartsInOrder(s: Server, k: Queued, self: Uuid, service: nat -> Time)
    requires s.queue.Some? && !s.queue.value.byPriority
    ensures var (s1, k1) := ProcessQueued(s, k, self, service); Started(s, k, s1, k1, Startable(s), self, service)
    decreases Depth(s)
  {
    if Startable(s) > 0 {
      var (s2, k2) := StartNext(s, k, self, service);
      StartsFirst(s, k, self, service);
      StartableNext(s, s2);
      StartsInOrder(s2, k2, self, service);
      var (s1, k1) := ProcessQueued(s2, k2, self, service);
      StartedJoin(s, k, s2, k2, s1, k1, Startable(s), self, service);
    } else {
      assert Completions(s.queue.value.items[..0], k.nextEvent, k.clock, self, service) == {};
    }
  }

  lemma {:induction false} StartableNext(s: Server, s2: Server)
    requires Startable(s) > 0 && s2.capacity == s.capacity && s2.activeThreads == s.activeThreads + 1
    requires Depth(s2) == Depth(s) - 1
    ensures Startable(s2) == Startable(s) - 1
  {}

  lemma {:induction false} StartedJoin(
      s: Server, k: Queued, s2: Server, k2: Queued, s1: Server, k1: Queued, n: nat, self: Uuid, service: nat -> Time)
    requires n > 0 && Started(s, k, s2, k2, 1, self, service) && Started(s2, k2, s1, k1, n - 1, self, service)
    ensures Started(s, k, s1, k1, n, self, service)
  {
    var items := s.queue.value.items;
    CompletionsFirst(items[..1], k.nextEvent, k.clock, self, service);
    assert Completions(items[..1][1..], k.nextEvent + 1, k.clock, self, service) == {};
    CompletionsFirst(items[..n], k.nextEvent, k.clock, self, service);
    assert items[..n][1..] == items[1..][..n - 1];
    assert items[1..][n - 1..] == items[n..];
  }

  lemma {:induction false} StartsFirst(s: Server, k: Queued, self: Uuid, service: nat -> Time)
    requires s.queue.Some? && !s.queue.value.byPriority && Depth(s) > 0
    ensures var (s2, k2) := StartNext(s, k, self, service);
            && Started(s, k, s2, k2, 1, self, service)
            && !s2.queue.value.byPriority && s2.capacity == s.capacity
  {
    var items := s.queue.value.items;
    assert items[..0] + items[1..] == items[1..];
    CompletionsFirst(items[..1], k.nextEvent, k.clock, self, service);
    assert Completions(items[..1][1..], k.nextEvent + 1, k.clock, self, service) == {};
  }

  // ----- rejections -----

  /** A step rejects an attempt exactly if one arrives while no thread is free and the queue has no room. */
  lemma {:induction false} RejectsOnlyWithoutRoom(n: Net, l: Label)
    requires Wired(n)
    ensures Step(n, l).server.rejected == n.server.rejected
              + One(Running(n) && NextEvent(n, l).ComponentEvent? && NextEvent(n, l).payload.ToServer?
                    && NextEvent(n, l).payload.s.ProcessRequest? && !HasCapacity(n.server) && !HasRoom(n.server))
  {
    if Running(n) {
      StepWired(n, l);
      PopWired(n, l);
      ProcessQueuedMoves(n.server, Advanced(n, l).k, n.serverKey, l.service);
    } else {
      DryStep(n, l);
    }
  }

  predicate Unlimited(s: Server) {
    s.queue.Some? && s.queue.value.capacity.None?
  }

  lemma {:induction false} StaysUnlimited(s: Server, k: Queued, self: Uuid, service: nat -> Time)
    requires Unlimited(s)
    ensures Unlimited(ProcessQueued(s, k, self, service).0)
    decreases Depth(s)
  {
    if HasCapacity(s) && Depth(s) > 0 {
      var (s2, k2) := StartNext(s, k, self, service);
      StaysUnlimited(s2, k2, self, service);
    }
  }

  /** Over every run a server whose queue has no limit rejects nothing. */
  lemma {:induction false} UnlimitedNeverRejects(n: Net, ls: seq<Label>)
    requires Wired(n) && Unlimited(n.server)
    ensures Run(n, ls).server.rejected == n.server.rejected
    decreases |ls|
  {
    if ls != [] {
      RejectsOnlyWithoutRoom(n, ls[0]);
      StepWired(n, ls[0]);
      if Running(n) {
        PopWired(n, ls[0]);
        StaysUnlimited(n.server, Advanced(n, ls[0]).k, n.serverKey, ls[0].service);
      } else {
        DryStep(n, ls[0]);
      }
      UnlimitedNeverRejects(Step(n, ls[0]), ls[1..]);
    }
  }

  // ----- timeouts -----

  /** The timeout of an active request's current attempt is due exactly the client's timeout after it was sent. */
  ghost predicate TimeoutExact(c: Client, e: Event) {
    e.ComponentEvent? && e.payload.ToClient? && e.payload.c.RequestTimeout? ==>
      var r, a := e.payload.c.request, e.payload.c.attempt;
      && a < c.nextAttemptId
      && (r in c.active && c.active[r].attempt.id == a ==>
            e.time == Saturate(c.active[r].attempt.startedAt + c.timeout))
  }

  ghost predicate TimeoutsExact(c: Client, k: Queued) {
    && (forall e <- k.events :: TimeoutExact(c, e))
    && (forall r <- c.active :: c.active[r].attempt.id < c.nextAttemptId)
  }

  /** A client that has only lost requests, or changed their retry budgets, has no new current attempts. */
  ghost predicate SameAttempts(c: Client, c1: Client) {
    && c1.nextAttemptId == c.nextAttemptId && c1.timeout == c.timeout
    && forall r <- c1.active :: r in c.active && c1.active[r].attempt == c.active[r].attempt
  }

  lemma {:induction false} TimeoutsKept(c: Client, k: Queued, c1: Client, k1: Queued)
    requires TimeoutsExact(c, k) && SameAttempts(c, c1)
    requires forall e <- k1.events - k.events ::
               e.ComponentEvent? && !(e.payload.ToClient? && e.payload.c.RequestTimeout?)
    ensures TimeoutsExact(c1, k1)
  {
    forall e <- k1.events ensures TimeoutExact(c1, e) {
      assert e in k.events ==> TimeoutExact(c, e);
    }
  }

  /** Sending an attempt of request r, which becomes its current one. */
  lemma {:induction false} SendTimesOut(
      c: Client, k: Queued, self: Uuid, request: nat, number: nat, budget: Budget, was: Client)
    requires TimeoutsExact(was, k) && c.nextAttemptId == was.nextAttemptId && c.timeout == was.timeout
    requires forall r <- c.active :: r != request ==> r in was.active && c.active[r] == was.active[r]
    ensures var (c1, k1, attempt) := SendAttempt(c, k, self, request, number);
            TimeoutsExact(c1.(active := c1.active[request := Active(attempt, budget)]), k1)
  {
    var (c1, k1, attempt) := SendAttempt(c, k, self, request, number);
    var c2 := c1.(active := c1.active[request := Active(attempt, budget)]);
    forall e <- k1.events ensures TimeoutExact(c2, e) {
      assert e in k.events ==> TimeoutExact(was, e);
    }
  }

  lemma {:induction false} ClientTimesOut(c: Client, k: Queued, self: Uuid, e: ClientEvent, delay: Time)
    requires TimeoutsExact(c, k)
    ensures var (c1, k1) := ProcessClient(c, k, self, e, delay); TimeoutsExact(c1, k1)
  {
    match e
    case SendRequest =>
      SendTimesOut(c.(nextRequestId := c.nextRequestId + 1), k, self, c.nextRequestId, 1, Budget(c.maxRetries, 0), c);
      RequestsSentAside(c, k, self);
    case ResponseReceived(_) =>
      var (c1, k1) := ProcessClient(c, k, self, e, delay);
      TimeoutsKept(c, k, c1, k1);
    case RequestTimeout(_, _) =>
      var (c1, k1) := ProcessClient(c, k, self, e, delay);
      TimeoutsKept(c, k, c1, k1);
    case RetryRequest(request) =>
      if request in c.active {
        SendTimesOut(c.(active := c.active - {request}), k, self, request, c.active[request].attempt.number + 1,
          c.active[request].budget, c);
      }
  }

  lemma {:induction false} RequestsSentAside(c: Client, k: Queued, self: Uuid)
    requires var next := c.nextRequestId;
             var (c1, k1, attempt) := SendAttempt(c.(nextRequestId := next + 1), k, self, next, 1);
             TimeoutsExact(c1.(active := c1.active[next := Active(attempt, Budget(c.maxRetries, 0))]), k1)
    ensures var (c1, k1) := HandleSend(c, k, self); TimeoutsExact(c1, k1)
  {
    var (c1, k1) := HandleSend(c, k, self);
    var (c2, k2, attempt) := SendAttempt(c.(nextRequestId := c.nextRequestId + 1), k, self, c.nextRequestId, 1);
    var c3 := c2.(active := c2.active[c.nextRequestId := Active(attempt, Budget(c.maxRetries, 0))]);
    forall e <- k1.events ensures TimeoutExact(c1, e) {
      assert TimeoutExact(c3, e);
    }
  }

  lemma {:induction false} ServerTimesNothing(
      c: Client, s: Server, k: Queued, self: Uuid, x: ServerEvent, service: nat -> Time)
    requires TimeoutsExact(c, k)
    ensures TimeoutsExact(c, ProcessServer(s, k, self, x, service).1)
  {
    var k1 := ProcessServer(s, k, self, x, service).1;
    forall e <- k1.events - k.events
      ensures e.ComponentEvent? && !(e.payload.ToClient? && e.payload.c.RequestTimeout?)
    {
      if x.ProcessQueuedRequests? {
        QueuedEvents(s, k, self, service, e);
      }
    }
    TimeoutsKept(c, k, c, k1);
  }

  lemma {:induction false} StepTimesOut(n: Net, l: Label)
    requires Wired(n) && TimeoutsExact(n.client, n.k)
    ensures TimeoutsExact(Step(n, l).client, Step(n, l).k)
  {
    if Running(n) {
      StepWired(n, l);
      PopWired(n, l);
      AllLive(n);
      var p, e := Advanced(n, l), NextEvent(n, l);
      TimeoutsKept(n.client, n.k, n.client, p.k);
      match e.payload {
        case ToClient(c) => ClientTimesOut(n.client, p.k, n.clientKey, c, l.delay);
        case ToServer(s) => ServerTimesNothing(n.client, n.server, p.k, n.serverKey, s, l.service);
      }
    } else {
      DryStep(n, l);
    }
  }

  /**
   * In every reachable state, for any tie-breaks, delays and service times: the timeout of an active
   * request's current attempt is due at exactly the time the attempt was sent plus the timeout.
   */
  lemma {:induction false} TimeoutsAreExact(n: Net, ls: seq<Label>)
    requires Wired(n) && TimeoutsExact(n.client, n.k)
    ensures TimeoutsExact(Run(n, ls).client, Run(n, ls).k)
    decreases |ls|
  {
    if ls != [] {
      StepTimesOut(n, ls[0]);
      StepWired(n, ls[0]);
      TimeoutsAreExact(Step(n, ls[0]), ls[1..]);
    }
  }

  lemma {:induction false} StartTimesOut(n: Net)
    requires Start(n)
    ensures TimeoutsExact(n.client, n.k)
  {}
}
