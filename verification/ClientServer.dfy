/** A retrying client and a server with a simulated thread pool, as state machines over the scheduler and as objects. */
module ClientServer {
  import opened SimTime
  import opened Options
  import opened Ids
  import opened Scheduling
  import opened RetryPolicies
  import opened Queues
  import Kernel

  datatype Response = Response(attempt: nat, request: nat, success: bool)

  datatype ClientEvent =
    | SendRequest
    | ResponseReceived(response: Response)
    | RequestTimeout(request: nat, attempt: nat)
    | RetryRequest(request: nat)

  datatype ServerEvent =
    | ProcessRequest(incoming: Attempt, client: Uuid)
    | RequestCompleted(attemptId: nat, requestId: nat, client: Uuid)
    | ProcessQueuedRequests

  datatype Msg = ToClient(c: ClientEvent) | ToServer(s: ServerEvent)

  type Queued = Kernel.State<Msg>

  const ONE_MILLISECOND: Time := 1_000_000
  const NIL: Uuid := 0

  function Tell(k: Queued, delay: Time, to: Uuid, m: Msg): Queued {
    Kernel.PushComponent(k, delay, to, m)
  }

  // ----- the client -----

  /** A request that awaits a response: its current attempt, and its own copy of the retry policy's state. */
  datatype Active = Active(attempt: Attempt, budget: Budget)

  datatype Client = Client(
    server: Uuid,
    timeout: Time,
    maxRetries: nat,
    nextRequestId: nat,
    nextAttemptId: nat,
    requestsSent: nat,
    attemptsSent: nat,
    successes: nat,
    failures: nat,
    active: map<nat, Active>)

  function NewClient(server: Uuid, timeout: Time, maxRetries: nat): Client {
    Client(server, timeout, maxRetries, 1, 1, 0, 0, 0, 0, map[])
  }

  /** Sends an attempt, and sets its timeout. */
  function SendAttempt(c: Client, k: Queued, self: Uuid, request: nat, number: nat): (Client, Queued, Attempt) {
    var attempt := Attempt(c.nextAttemptId, request, number, k.clock);
    var k1 := Tell(k, c.timeout, self, ToClient(RequestTimeout(request, attempt.id)));
    var k2 := Tell(k1, 0, c.server, ToServer(ProcessRequest(attempt, self)));
    (c.(nextAttemptId := c.nextAttemptId + 1, attemptsSent := c.attemptsSent + 1), k2, attempt)
  }

  function HandleSend(c: Client, k: Queued, self: Uuid): (Client, Queued) {
    var request := c.nextRequestId;
    var (c1, k1, attempt) := SendAttempt(c.(nextRequestId := request + 1), k, self, request, 1);
    (c1.(active := c1.active[request := Active(attempt, Budget(c.maxRetries, 0))], requestsSent := c1.requestsSent + 1),
      k1)
  }

  function Succeed(c: Client, request: nat): Client {
    c.(active := c.active - {request}, successes := c.successes + 1)
  }

  function Fail(c: Client, request: nat): Client {
    c.(active := c.active - {request}, failures := c.failures + 1)
  }

  /** The request stays active with one retry spent. */
  function Retrying(c: Client, request: nat): Client
    requires request in c.active
  {
    c.(active := c.active[request := c.active[request].(budget := Spend(c.active[request].budget, false).0)])
  }

  /** After a failed attempt: `delay` is the policy's delay, if it grants a retry. */
  function RetryOrFail(c: Client, k: Queued, self: Uuid, request: nat, delay: Time): (Client, Queued)
    requires request in c.active
  {
    if Spend(c.active[request].budget, false).1 then
      (Retrying(c, request), Tell(k, delay, self, ToClient(RetryRequest(request))))
    else (Fail(c, request), k)
  }

  function HandleResponse(c: Client, k: Queued, self: Uuid, r: Response, delay: Time): (Client, Queued) {
    if r.request !in c.active then (c, k)
    else if r.success then (Succeed(c, r.request), k)
    else RetryOrFail(c, k, self, r.request, delay)
  }

  function HandleTimeout(c: Client, k: Queued, self: Uuid, request: nat, attempt: nat, delay: Time): (Client, Queued) {
    if request !in c.active || c.active[request].attempt.id != attempt then (c, k)
    else RetryOrFail(c, k, self, request, delay)
  }

  function HandleRetry(c: Client, k: Queued, self: Uuid, request: nat): (Client, Queued) {
    if request !in c.active then (c, k)
    else
      var a := c.active[request];
      var (c1, k1, attempt) := SendAttempt(c.(active := c.active - {request}), k, self, request, a.attempt.number + 1);
      (c1.(active := c1.active[request := Active(attempt, a.budget)]), k1)
  }

  function ProcessClient(c: Client, k: Queued, self: Uuid, e: ClientEvent, delay: Time): (Client, Queued) {
    match e
    case SendRequest => HandleSend(c, k, self)
    case ResponseReceived(r) => HandleResponse(c, k, self, r, delay)
    case RequestTimeout(request, attempt) => HandleTimeout(c, k, self, request, attempt, delay)
    case RetryRequest(request) => HandleRetry(c, k, self, request)
  }

  // ----- the server -----

  datatype Server = Server(
    capacity: nat,
    activeThreads: nat,
    queue: Option<Queue>,
    processed: nat,
    rejected: nat,
    queued: nat)

  function NewServer(capacity: nat, queue: Option<Queue>): Server {
    Server(capacity, 0, queue, 0, 0, 0)
  }

  predicate HasCapacity(s: Server) { s.activeThreads < s.capacity }

  /** A queue without a limit, or with fewer items than its limit. */
  predicate HasRoom(s: Server) {
    s.queue.Some? && (s.queue.value.capacity.None? || |s.queue.value.items| < s.queue.value.capacity.value)
  }

  function Depth(s: Server): nat {
    if s.queue.Some? then |s.queue.value.items| else 0
  }

  /** Takes a thread until the attempt's service time is over. */
  function StartProcessing(
      s: Server, k: Queued, self: Uuid, a: Attempt, client: Uuid, service: nat -> Time): (Server, Queued)
  {
    (s.(activeThreads := s.activeThreads + 1),
      Tell(k, service(a.id), self, ToServer(RequestCompleted(a.id, a.request, client))))
  }

  function Reject(s: Server, k: Queued, a: Attempt, client: Uuid): (Server, Queued) {
    (s.(rejected := s.rejected + 1),
      Tell(k, ONE_MILLISECOND, client, ToClient(ResponseReceived(Response(a.id, a.request, false)))))
  }

  function HandleRequest(
      s: Server, k: Queued, self: Uuid, a: Attempt, client: Uuid, service: nat -> Time): (Server, Queued)
  {
    if HasCapacity(s) then StartProcessing(s, k, self, a, client, service)
    else if s.queue.None? then Reject(s, k, a, client)
    else
      var q := Enqueue(s.queue.value, Item(a, k.clock, 0, Some(client)));
      if q.Some? then (s.(queue := q, queued := s.queued + 1), k) else Reject(s, k, a, client)
  }

  /** Frees the thread (saturating), answers, and asks for the queue to be looked at. */
  function Complete(s: Server, k: Queued, self: Uuid, attempt: nat, request: nat, client: Uuid): (Server, Queued) {
    var s1 :=
      s.(activeThreads := if s.activeThreads == 0 then 0 else s.activeThreads - 1, processed := s.processed + 1);
    var k1 := Tell(k, ONE_MILLISECOND, client, ToClient(ResponseReceived(Response(attempt, request, true))));
    (s1, if HasCapacity(s1) && Depth(s1) > 0 then Tell(k1, 0, self, ToServer(ProcessQueuedRequests)) else k1)
  }

  /** Takes the next attempt off the queue and starts it. */
  function StartNext(s: Server, k: Queued, self: Uuid, service: nat -> Time): (r: (Server, Queued))
    requires Depth(s) > 0
    ensures Depth(r.0) == Depth(s) - 1
  {
    var (q, item) := Dequeue(s.queue.value);
    StartProcessing(s.(queue := Some(q)), k, self, item.value.attempt,
      if item.value.client.Some? then item.value.client.value else NIL, service)
  }

  /** Starts queued attempts while there are free threads. */
  function ProcessQueued(s: Server, k: Queued, self: Uuid, service: nat -> Time): (Server, Queued)
    decreases Depth(s)
  {
    if !HasCapacity(s) || Depth(s) == 0 then (s, k)
    else
      var (s1, k1) := StartNext(s, k, self, service);
      ProcessQueued(s1, k1, self, service)
  }

  function ProcessServer(s: Server, k: Queued, self: Uuid, e: ServerEvent, service: nat -> Time): (Server, Queued) {
    match e
    case ProcessRequest(a, client) => HandleRequest(s, k, self, a, client, service)
    case RequestCompleted(attempt, request, client) => Complete(s, k, self, attempt, request, client)
    case ProcessQueuedRequests => ProcessQueued(s, k, self, service)
  }

  // ----- the objects -----

  /** The queue with one more entry, due so long after its clock (or at the end of time). */
  predicate OneMore(k: Queued, was: Queued, delay: Time, to: Uuid, m: Msg) {
    && k.nextEvent == was.nextEvent + 1
    && k.events == was.events + {Kernel.ComponentEvent(was.nextEvent + 1, Saturate(was.clock + delay), to, m)}
  }

  /** Whether the request may be tried again. */
  predicate MayRetry(a: Active) {
    a.budget.current < a.budget.max
  }

  /** The same attempt, with one retry more used up. */
  function WithRetrySpent(a: Active): Active {
    a.(budget := Budget(a.budget.max, a.budget.current + 1))
  }

  class SimpleClient {
    const serverKey: Uuid
    const requestTimeout: Time
    /** The limit of the retry policy, which every request starts with afresh. */
    const maxRetries: nat
    var nextRequestId: nat
    var nextAttemptId: nat
    var requestsSent: nat
    var activeRequests: map<nat, Active>
    /** The counters `attempts_sent`, `responses_success` and `requests_failed_permanently`. */
    var attemptsSent: nat
    var successes: nat
    var failures: nat

    ghost function Now(): Client
      reads this
    {
      Client(serverKey, requestTimeout, maxRetries, nextRequestId, nextAttemptId, requestsSent, attemptsSent, successes,
        failures, activeRequests)
    }

    constructor (serverKey: Uuid, requestTimeout: Time, maxRetries: nat)
      ensures Now() == NewClient(serverKey, requestTimeout, maxRetries)
      ensures this.serverKey == serverKey && this.requestTimeout == requestTimeout && this.maxRetries == maxRetries
      ensures nextRequestId == 1 && nextAttemptId == 1 && activeRequests == map[]
      ensures requestsSent == 0 && attemptsSent == 0 && successes == 0 && failures == 0
    {
      this.serverKey, this.requestTimeout, this.maxRetries := serverKey, requestTimeout, maxRetries;
      nextRequestId, nextAttemptId, requestsSent, activeRequests := 1, 1, 0, map[];
      attemptsSent, successes, failures := 0, 0, 0;
    }

    method SendOneAttempt(request: nat, number: nat, scheduler: Scheduler<Msg>, self: Uuid) returns (attempt: Attempt)
      modifies this`nextAttemptId, this`attemptsSent, scheduler
      ensures (Now(), scheduler.Now(), attempt) == SendAttempt(old(Now()), old(scheduler.Now()), self, request, number)
      ensures attempt == Attempt(old(nextAttemptId), request, number, scheduler.clock)
      ensures nextAttemptId == old(nextAttemptId) + 1 && attemptsSent == old(attemptsSent) + 1
      ensures scheduler.nextEventId == old(scheduler.nextEventId) + 2
      ensures scheduler.events == old(scheduler.events)
                + {Kernel.ComponentEvent(old(scheduler.nextEventId) + 1, Saturate(scheduler.clock + requestTimeout),
                     self, ToClient(RequestTimeout(request, attempt.id))),
                   Kernel.ComponentEvent(old(scheduler.nextEventId) + 2, scheduler.clock, serverKey,
                     ToServer(ProcessRequest(attempt, self)))}
    {
      var attemptId := nextAttemptId;
      nextAttemptId := nextAttemptId + 1;
      attempt := Attempt(attemptId, request, number, scheduler.clock);
      scheduler.Schedule(requestTimeout, self, ToClient(RequestTimeout(request, attemptId)));
      attemptsSent := attemptsSent + 1;
      scheduler.Schedule(0, serverKey, ToServer(ProcessRequest(attempt, self)));
    }

    /** After a failed attempt: a retry is used up and scheduled, or, with none left, the request has failed. */
    ghost predicate Failed(
        active: map<nat, Active>, failed: nat, was: Queued, request: nat, delay: Time, k: Queued, self: Uuid)
      requires request in active
      reads this
    {
      if MayRetry(active[request]) then
        && activeRequests == active[request := WithRetrySpent(active[request])] && failures == failed
        && OneMore(k, was, delay, self, ToClient(RetryRequest(request)))
      else activeRequests == active - {request} && failures == failed + 1 && k == was
    }

    method OnResponse(r: Response, delay: Time, scheduler: Scheduler<Msg>, self: Uuid)
      modifies this`activeRequests, this`successes, this`failures, scheduler
      ensures (Now(), scheduler.Now()) == HandleResponse(old(Now()), old(scheduler.Now()), self, r, delay)
      ensures r.request !in old(activeRequests) ==> Now() == old(Now()) && scheduler.Now() == old(scheduler.Now())
      ensures r.request in old(activeRequests) && r.success ==>
              && activeRequests == old(activeRequests) - {r.request} && scheduler.Now() == old(scheduler.Now())
              && successes == old(successes) + 1 && failures == old(failures)
      ensures r.request in old(activeRequests) && !r.success ==>
              Failed(old(activeRequests), old(failures), old(scheduler.Now()), r.request, delay, scheduler.Now(), self)
              && successes == old(successes)
    {
      if r.request !in activeRequests {
        return;
      }
      var entry := activeRequests[r.request];
      activeRequests := activeRequests - {r.request};
      if r.success {
        successes := successes + 1;
      } else {
        var (budget, granted) := Spend(entry.budget, false);
        if granted {
          activeRequests := activeRequests[r.request := entry.(budget := budget)];
          assert activeRequests == old(activeRequests)[r.request := entry.(budget := budget)];
          scheduler.Schedule(delay, self, ToClient(RetryRequest(r.request)));
        } else {
          failures := failures + 1;
        }
      }
    }

    method OnTimeout(request: nat, attempt: nat, delay: Time, scheduler: Scheduler<Msg>, self: Uuid)
      modifies this`activeRequests, this`failures, scheduler
      ensures (Now(), scheduler.Now()) == HandleTimeout(old(Now()), old(scheduler.Now()), self, request, attempt, delay)
      ensures request !in old(activeRequests) || old(activeRequests)[request].attempt.id != attempt ==>
              Now() == old(Now()) && scheduler.Now() == old(scheduler.Now())
      ensures request in old(activeRequests) && old(activeRequests)[request].attempt.id == attempt ==>
              Failed(old(activeRequests), old(failures), old(scheduler.Now()), request, delay, scheduler.Now(), self)
    {
      if request in activeRequests && activeRequests[request].attempt.id == attempt {
        var (budget, granted) := Spend(activeRequests[request].budget, false);
        activeRequests := activeRequests[request := activeRequests[request].(budget := budget)];
        if granted {
          scheduler.Schedule(delay, self, ToClient(RetryRequest(request)));
        } else {
          activeRequests := activeRequests - {request};
          assert activeRequests == old(activeRequests) - {request};
          failures := failures + 1;
        }
      }
    }

    method OnRetry(request: nat, scheduler: Scheduler<Msg>, self: Uuid)
      modifies this, scheduler
      ensures (Now(), scheduler.Now()) == HandleRetry(old(Now()), old(scheduler.Now()), self, request)
      ensures request !in old(activeRequests) ==> Now() == old(Now()) && scheduler.Now() == old(scheduler.Now())
      ensures request in old(activeRequests) ==>
              var a := old(activeRequests)[request];
              && activeRequests == old(activeRequests)[request := Active(
                   Attempt(old(nextAttemptId), request, a.attempt.number + 1, scheduler.clock), a.budget)]
              && attemptsSent == old(attemptsSent) + 1 && scheduler.nextEventId == old(scheduler.nextEventId) + 2
    {
      if request in activeRequests {
        var entry := activeRequests[request];
        activeRequests := activeRequests - {request};
        var attempt := SendOneAttempt(request, entry.attempt.number + 1, scheduler, self);
        activeRequests := activeRequests[request := Active(attempt, entry.budget)];
        assert activeRequests == old(activeRequests)[request := Active(attempt, entry.budget)];
      }
    }

    /** A new request: its first attempt is sent, and it starts with an unused retry policy. */
    method OnSend(scheduler: Scheduler<Msg>, self: Uuid)
      modifies this, scheduler
      ensures (Now(), scheduler.Now()) == HandleSend(old(Now()), old(scheduler.Now()), self)
      ensures nextRequestId == old(nextRequestId) + 1 && requestsSent == old(requestsSent) + 1
      ensures activeRequests == old(activeRequests)[old(nextRequestId) := Active(
                Attempt(old(nextAttemptId), old(nextRequestId), 1, scheduler.clock), Budget(maxRetries, 0))]
      ensures attemptsSent == old(attemptsSent) + 1 && scheduler.nextEventId == old(scheduler.nextEventId) + 2
    {
      var request := nextRequestId;
      nextRequestId := nextRequestId + 1;
      var attempt := SendOneAttempt(request, 1, scheduler, self);
      activeRequests := activeRequests[request := Active(attempt, Budget(maxRetries, 0))];
      requestsSent := requestsSent + 1;
    }

    /** `delay` is what the retry policy asks for, should it grant a retry. */
    method ProcessEvent(self: Uuid, event: ClientEvent, delay: Time, scheduler: Scheduler<Msg>)
      modifies this, scheduler
      ensures (Now(), scheduler.Now()) == ProcessClient(old(Now()), old(scheduler.Now()), self, event, delay)
    {
      match event
      case SendRequest => OnSend(scheduler, self);
      case ResponseReceived(r) => OnResponse(r, delay, scheduler, self);
      case RequestTimeout(request, attempt) => OnTimeout(request, attempt, delay, scheduler, self);
      case RetryRequest(request) => OnRetry(request, scheduler, self);
    }
  }

  class SimpleServer {
    const threadCapacity: nat
    var activeThreads: nat
    var queue: Option<Queue>
    var requestsProcessed: nat
    var requestsRejected: nat
    var requestsQueued: nat

    ghost function Now(): Server
      reads this
    {
      Server(threadCapacity, activeThreads, queue, requestsProcessed, requestsRejected, requestsQueued)
    }

    constructor (threadCapacity: nat, queue: Option<Queue>)
      ensures Now() == NewServer(threadCapacity, queue)
      ensures this.threadCapacity == threadCapacity && this.queue == queue && activeThreads == 0
      ensures requestsProcessed == 0 && requestsRejected == 0 && requestsQueued == 0
    {
      this.threadCapacity, activeThreads, this.queue := threadCapacity, 0, queue;
      requestsProcessed, requestsRejected, requestsQueued := 0, 0, 0;
    }

    method Start(a: Attempt, client: Uuid, service: nat -> Time, scheduler: Scheduler<Msg>, self: Uuid)
      modifies this`activeThreads, scheduler
      ensures (Now(), scheduler.Now()) == StartProcessing(old(Now()), old(scheduler.Now()), self, a, client, service)
      ensures activeThreads == old(activeThreads) + 1
      ensures OneMore(scheduler.Now(), old(scheduler.Now()), service(a.id), self,
                ToServer(RequestCompleted(a.id, a.request, client)))
    {
      activeThreads := activeThreads + 1;
      scheduler.Schedule(service(a.id), self, ToServer(RequestCompleted(a.id, a.request, client)));
    }

    method RejectRequest(a: Attempt, client: Uuid, scheduler: Scheduler<Msg>)
      modifies this`requestsRejected, scheduler
      ensures (Now(), scheduler.Now()) == Reject(old(Now()), old(scheduler.Now()), a, client)
      ensures requestsRejected == old(requestsRejected) + 1
      ensures OneMore(scheduler.Now(), old(scheduler.Now()), ONE_MILLISECOND, client,
                ToClient(ResponseReceived(Response(a.id, a.request, false))))
    {
      requestsRejected := requestsRejected + 1;
      scheduler.Schedule(ONE_MILLISECOND, client, ToClient(ResponseReceived(Response(a.id, a.request, false))));
    }

    /**
     * A free thread takes the attempt; otherwise it waits at the end of a queue that has room; only
     * otherwise is it rejected, with a failed response one millisecond later.
     */
    method OnRequest(a: Attempt, client: Uuid, service: nat -> Time, scheduler: Scheduler<Msg>, self: Uuid)
      modifies this, scheduler
      ensures (Now(), scheduler.Now()) == HandleRequest(old(Now()), old(scheduler.Now()), self, a, client, service)
      ensures requestsProcessed == old(requestsProcessed)
      ensures old(activeThreads) < threadCapacity ==>
              && activeThreads == old(activeThreads) + 1 && queue == old(queue)
              && requestsRejected == old(requestsRejected) && requestsQueued == old(requestsQueued)
              && OneMore(scheduler.Now(), old(scheduler.Now()), service(a.id), self,
                   ToServer(RequestCompleted(a.id, a.request, client)))
      ensures old(activeThreads) >= threadCapacity ==> activeThreads == old(activeThreads)
      ensures old(activeThreads) >= threadCapacity && HasRoom(old(Now())) ==>
              && queue.Some?
              && queue.value.items == old(queue.value.items) + [Item(a, scheduler.clock, 0, Some(client))]
              && queue.value.capacity == old(queue.value.capacity)
              && requestsQueued == old(requestsQueued) + 1 && requestsRejected == old(requestsRejected)
              && scheduler.Now() == old(scheduler.Now())
      ensures old(activeThreads) >= threadCapacity && !HasRoom(old(Now())) ==>
              && queue == old(queue) && requestsQueued == old(requestsQueued)
              && requestsRejected == old(requestsRejected) + 1
              && OneMore(scheduler.Now(), old(scheduler.Now()), ONE_MILLISECOND, client,
                   ToClient(ResponseReceived(Response(a.id, a.request, false))))
    {
      if activeThreads < threadCapacity {
        Start(a, client, service, scheduler, self);
      } else if queue.Some? {
        var q := Enqueue(queue.value, Item(a, scheduler.clock, 0, Some(client)));
        if q.Some? {
          queue := q;
          requestsQueued := requestsQueued + 1;
        } else {
          RejectRequest(a, client, scheduler);
        }
      } else {
        RejectRequest(a, client, scheduler);
      }
    }

    method OnCompletion(attempt: nat, request: nat, client: Uuid, scheduler: Scheduler<Msg>, self: Uuid)
      modifies this, scheduler
      ensures (Now(), scheduler.Now()) == Complete(old(Now()), old(scheduler.Now()), self, attempt, request, client)
      ensures requestsProcessed == old(requestsProcessed) + 1 && requestsRejected == old(requestsRejected)
      ensures activeThreads == (if old(activeThreads) == 0 then 0 else old(activeThreads) - 1) && queue == old(queue)
      ensures var answer := Kernel.ComponentEvent(old(scheduler.nextEventId) + 1,
                Saturate(scheduler.clock + ONE_MILLISECOND), client,
                ToClient(ResponseReceived(Response(attempt, request, true))));
              var look := Kernel.ComponentEvent(old(scheduler.nextEventId) + 2, scheduler.clock, self,
                ToServer(ProcessQueuedRequests));
              scheduler.events == old(scheduler.events)
                + if activeThreads < threadCapacity && queue.Some? && queue.value.items != [] then {answer, look}
                  else {answer}
    {
      activeThreads := if activeThreads == 0 then 0 else activeThreads - 1;
      requestsProcessed := requestsProcessed + 1;
      scheduler.Schedule(ONE_MILLISECOND, client, ToClient(ResponseReceived(Response(attempt, request, true))));
      if activeThreads < threadCapacity && queue.Some? && |queue.value.items| > 0 {
        scheduler.Schedule(0, self, ToServer(ProcessQueuedRequests));
      }
    }

    method OnQueued(service: nat -> Time, scheduler: Scheduler<Msg>, self: Uuid)
      modifies this, scheduler
      ensures (Now(), scheduler.Now()) == ProcessQueued(old(Now()), old(scheduler.Now()), self, service)
    {
      while activeThreads < threadCapacity
        invariant ProcessQueued(Now(), scheduler.Now(), self, service)
                  == ProcessQueued(old(Now()), old(scheduler.Now()), self, service)
        decreases Depth(Now())
      {
        if queue.None? {
          break;
        }
        var (q, item) := Dequeue(queue.value);
        if item.None? {
          break;
        }
        queue := Some(q);
        Start(item.value.attempt, if item.value.client.Some? then item.value.client.value else NIL, service, scheduler,
          self);
      }
    }

    /** `service` gives each attempt's service time. */
    method ProcessEvent(self: Uuid, event: ServerEvent, service: nat -> Time, scheduler: Scheduler<Msg>)
      modifies this, scheduler
      ensures (Now(), scheduler.Now()) == ProcessServer(old(Now()), old(scheduler.Now()), self, event, service)
    {
      match event
      case ProcessRequest(a, client) => OnRequest(a, client, service, scheduler, self);
      case RequestCompleted(attempt, request, client) => OnCompletion(attempt, request, client, scheduler, self);
      case ProcessQueuedRequests => OnQueued(service, scheduler, self);
    }
  }
}
