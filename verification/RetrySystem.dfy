/**
 * The closed system of one retrying client and one server on the event queue: conservation, no stuck
 * request, bounded retries, and termination, for any tie-breaks, delays and service times.
 */
module RetrySystem {
  import opened SimTime
  import opened Options
  import opened Ids
  import opened KernelInvariants
  import KernelRuns
  import opened RetryPolicies
  import opened Queues
  import opened ClientServer
  import opened Sums
  import Kernel

  type Event = Kernel.Entry<Msg>

  datatype Net = Net(k: Queued, client: Client, server: Server, clientKey: Uuid, serverKey: Uuid)

  /** One step: the tie-break, the policy's delay, and the service times. */
  datatype Label = Label(pick: nat, delay: Time, service: nat -> Time)

  ghost function Handle(n: Net, e: Event, l: Label): Net {
    if e.ComponentEvent? && e.component == n.clientKey && e.payload.ToClient? then
      var (c, k) := ProcessClient(n.client, n.k, n.clientKey, e.payload.c, l.delay);
      n.(client := c, k := k)
    else if e.ComponentEvent? && e.component == n.serverKey && e.payload.ToServer? then
      var (s, k) := ProcessServer(n.server, n.k, n.serverKey, e.payload.s, l.service);
      n.(server := s, k := k)
    else n
  }

  ghost predicate Running(n: Net) { Kernel.Live(n.k) != {} }

  ghost function NextEvent(n: Net, l: Label): Event
    requires Running(n)
  {
    Kernel.Chosen(n.k, l.pick)
  }

  ghost function Advanced(n: Net, l: Label): Net
    requires Running(n)
  {
    n.(k := Kernel.Popped(n.k, NextEvent(n, l)))
  }

  ghost function Step(n: Net, l: Label): Net {
    if !Running(n) then n.(k := Kernel.Sweep(n.k, MAX_NANOS))
    else
      var r := Handle(Advanced(n, l), NextEvent(n, l), l);
      r.(k := Kernel.Drain(r.k))
  }

  ghost function Run(n: Net, ls: seq<Label>): Net
    decreases |ls|
  {
    if ls == [] then n else Run(Step(n, ls[0]), ls[1..])
  }

  // ----- counting events -----

  ghost function OnPayload(weight: Msg -> nat): Event -> nat {
    (e: Event) => if e.ComponentEvent? then weight(e.payload) else 0
  }

  ghost function Weighed(k: Queued, weight: Msg -> nat): nat {
    Sum(k.events, OnPayload(weight))
  }

  function IsRetry(r: nat): Msg -> nat {
    (m: Msg) => if m == ToClient(RetryRequest(r)) then 1 else 0
  }

  function IsTimeout(r: nat, a: nat): Msg -> nat {
    (m: Msg) => if m == ToClient(RequestTimeout(r, a)) then 1 else 0
  }

  function IsRequest(): Msg -> nat {
    (m: Msg) => if m.ToServer? && m.s.ProcessRequest? then 1 else 0
  }

  function IsCompletion(): Msg -> nat {
    (m: Msg) => if m.ToServer? && m.s.RequestCompleted? then 1 else 0
  }

  lemma {:induction false} TellAdds(k: Queued, delay: Time, to: Uuid, m: Msg, weight: Msg -> nat)
    requires QueueOk(k)
    ensures QueueOk(Tell(k, delay, to, m)) && Weighed(Tell(k, delay, to, m), weight) == Weighed(k, weight) + weight(m)
  {
    var e := Kernel.ComponentEvent(k.nextEvent + 1, Plus(k.clock, delay), to, m);
    SumAdd(k.events, e, OnPayload(weight));
  }

  lemma {:induction false} PopTakes(n: Net, l: Label, weight: Msg -> nat)
    requires Wired(n) && Running(n)
    ensures Weighed(n.k, weight) == weight(NextEvent(n, l).payload) + Weighed(Advanced(n, l).k, weight)
  {
    AllLive(n);
    SumRemove(n.k.events, NextEvent(n, l), OnPayload(weight));
  }

  // ----- wiring -----

  /** Every event is addressed to the component that understands it, and answers go to the client. */
  ghost predicate Addressed(n: Net, e: Event) {
    && e.ComponentEvent?
    && (e.payload.ToClient? ==> e.component == n.clientKey)
    && (e.payload.ToServer? ==> e.component == n.serverKey)
    && (e.payload.ToServer? && e.payload.s.ProcessRequest? ==> e.payload.s.client == n.clientKey)
    && (e.payload.ToServer? && e.payload.s.RequestCompleted? ==> e.payload.s.client == n.clientKey)
  }

  ghost predicate Wired(n: Net) {
    && QueueOk(n.k) && n.k.deferred == []
    && n.client.server == n.serverKey
    && (forall e <- n.k.events :: Addressed(n, e))
    && (n.server.queue.Some? ==> forall i <- n.server.queue.value.items :: i.client == Some(n.clientKey))
  }

  lemma {:induction false} AllLive(n: Net)
    requires forall e <- n.k.events :: e.ComponentEvent?
    ensures Kernel.Live(n.k) == n.k.events
    ensures Running(n) ==>
            forall l: Label :: Advanced(n, l).k.events == n.k.events - {NextEvent(n, l)}
              && NextEvent(n, l) in n.k.events
  {
    assert Kernel.Live(n.k) == n.k.events;
    if Running(n) {
      forall l: Label ensures Advanced(n, l).k.events == n.k.events - {NextEvent(n, l)}
        && NextEvent(n, l) in n.k.events {
        var e := NextEvent(n, l);
        assert (set d | d in n.k.events && Kernel.IsCancelled(n.k, d) && d.time <= e.time) == {};
      }
    }
  }

  /** Without events nothing happens any more. */
  lemma {:induction false} DryStep(n: Net, l: Label)
    requires Wired(n) && !Running(n)
    ensures Step(n, l) == n
  {
    AllLive(n);
    assert Kernel.Sweep(n.k, MAX_NANOS).events == {} == n.k.events;
    assert Kernel.Sweep(n.k, MAX_NANOS).cancelled == n.k.cancelled;
  }

  lemma {:induction false} TellWired(n: Net, delay: Time, to: Uuid, m: Msg)
    requires Wired(n) && Addressed(n, Kernel.ComponentEvent(n.k.nextEvent + 1, Plus(n.k.clock, delay), to, m))
    ensures Wired(n.(k := Tell(n.k, delay, to, m)))
  {}

  lemma {:induction false} PopWired(n: Net, l: Label)
    requires Wired(n) && Running(n)
    ensures Wired(Advanced(n, l)) && Addressed(n, NextEvent(n, l))
            && n.k.clock <= Advanced(n, l).k.clock == NextEvent(n, l).time
    ensures forall e <- n.k.events :: e.time == n.k.clock ==> Advanced(n, l).k.clock == n.k.clock
  {
    AllLive(n);
    var e := NextEvent(n, l);
    forall f <- n.k.events ensures e.time <= f.time {
      assert f in Kernel.Live(n.k) && !Kernel.Before(f, Kernel.Top(Kernel.Live(n.k)));
    }
  }

  lemma {:induction false} DrainNothing(k: Queued)
    requires k.deferred == []
    ensures Kernel.Drain(k) == k
  {}

  lemma {:induction false} SendWired(n: Net, c: Client, request: nat, number: nat)
    requires Wired(n) && c.server == n.serverKey
    ensures var (c1, k1, _) := SendAttempt(c, n.k, n.clientKey, request, number);
      c1.server == n.serverKey && Wired(n.(k := k1)) && k1.clock == n.k.clock && n.k.events <= k1.events
  {
    var m1 := ToClient(RequestTimeout(request, c.nextAttemptId));
    TellWired(n, c.timeout, n.clientKey, m1);
    var n1 := n.(k := Tell(n.k, c.timeout, n.clientKey, m1));
    TellWired(n1, 0, n.serverKey,
      ToServer(ProcessRequest(Attempt(c.nextAttemptId, request, number, n.k.clock), n.clientKey)));
  }

  lemma {:induction false} RetryWired(n: Net, request: nat)
    requires Wired(n)
    ensures var (c, k) := HandleRetry(n.client, n.k, n.clientKey, request);
      Wired(n.(client := c, k := k)) && k.clock == n.k.clock && n.k.events <= k.events
  {
    if request in n.client.active {
      SendWired(n, n.client.(active := n.client.active - {request}), request,
        n.client.active[request].attempt.number + 1);
    }
  }

  lemma {:induction false} FirstSendWired(n: Net)
    requires Wired(n)
    ensures var (c, k) := HandleSend(n.client, n.k, n.clientKey);
            Wired(n.(client := c, k := k)) && k.clock == n.k.clock && n.k.events <= k.events
  {
    SendWired(n, n.client.(nextRequestId := n.client.nextRequestId + 1), n.client.nextRequestId, 1);
  }

  lemma {:induction false} RetryOrFailWired(n: Net, request: nat, delay: Time)
    requires Wired(n) && request in n.client.active
    ensures var (c, k) := RetryOrFail(n.client, n.k, n.clientKey, request, delay);
            Wired(n.(client := c, k := k)) && k.clock == n.k.clock && n.k.events <= k.events
  {
    TellWired(n, delay, n.clientKey, ToClient(RetryRequest(request)));
  }

  lemma {:induction false} ClientWired(n: Net, e: ClientEvent, delay: Time)
    requires Wired(n)
    ensures var (c, k) := ProcessClient(n.client, n.k, n.clientKey, e, delay);
            Wired(n.(client := c, k := k)) && k.clock == n.k.clock && n.k.events <= k.events
  {
    match e
    case SendRequest => FirstSendWired(n);
    case ResponseReceived(r) =>
      if r.request in n.client.active && !r.success {
        RetryOrFailWired(n, r.request, delay);
      }
    case RequestTimeout(request, attempt) =>
      if request in n.client.active && n.client.active[request].attempt.id == attempt {
        RetryOrFailWired(n, request, delay);
      }
    case RetryRequest(request) => RetryWired(n, request);
  }

  lemma {:induction false} StartWired(n: Net, a: Attempt, service: nat -> Time)
    requires Wired(n)
    ensures var (s, k) := StartProcessing(n.server, n.k, n.serverKey, a, n.clientKey, service);
      Wired(n.(server := s, k := k)) && k.clock == n.k.clock && n.k.events <= k.events
  {
    TellWired(n, service(a.id), n.serverKey, ToServer(RequestCompleted(a.id, a.request, n.clientKey)));
  }

  lemma {:induction false} RejectWired(n: Net, a: Attempt)
    requires Wired(n)
    ensures var (s, k) := Reject(n.server, n.k, a, n.clientKey);
      Wired(n.(server := s, k := k)) && k.clock == n.k.clock && n.k.events <= k.events
  {
    TellWired(n, ONE_MILLISECOND, n.clientKey, ToClient(ResponseReceived(Response(a.id, a.request, false))));
  }

  lemma {:induction false} DequeueWired(q: Queue, client: Uuid)
    requires q.items != [] && forall i <- q.items :: i.client == Some(client)
    ensures var (r, item) := Dequeue(q);
      item.Some? && item.value.client == Some(client) && (forall i <- r.items :: i.client == Some(client))
        && |r.items| == |q.items| - 1
  {}

  lemma {:induction false} ProcessQueuedWired(n: Net, service: nat -> Time)
    requires Wired(n)
    ensures var (s, k) := ProcessQueued(n.server, n.k, n.serverKey, service);
      Wired(n.(server := s, k := k)) && k.clock == n.k.clock && n.k.events <= k.events
    decreases Depth(n.server)
  {
    if HasCapacity(n.server) && Depth(n.server) > 0 {
      DequeueWired(n.server.queue.value, n.clientKey);
      var (q, item) := Dequeue(n.server.queue.value);
      var n1 := n.(server := n.server.(queue := Some(q)));
      StartWired(n1, item.value.attempt, service);
      var (s2, k2) := StartProcessing(n1.server, n1.k, n.serverKey, item.value.attempt, n.clientKey, service);
      ProcessQueuedWired(n1.(server := s2, k := k2), service);
    }
  }

  lemma {:induction false} RequestWired(n: Net, a: Attempt, service: nat -> Time)
    requires Wired(n)
    ensures var (s, k) := HandleRequest(n.server, n.k, n.serverKey, a, n.clientKey, service);
            Wired(n.(server := s, k := k)) && k.clock == n.k.clock && n.k.events <= k.events
  {
    if HasCapacity(n.server) {
      StartWired(n, a, service);
    } else {
      RejectWired(n, a);
    }
  }

  lemma {:induction false} CompleteWired(n: Net, attempt: nat, request: nat)
    requires Wired(n)
    ensures var (s, k) := Complete(n.server, n.k, n.serverKey, attempt, request, n.clientKey);
            Wired(n.(server := s, k := k)) && k.clock == n.k.clock && n.k.events <= k.events
  {
    var m := ToClient(ResponseReceived(Response(attempt, request, true)));
    TellWired(n, ONE_MILLISECOND, n.clientKey, m);
    TellWired(n.(k := Tell(n.k, ONE_MILLISECOND, n.clientKey, m)), 0, n.serverKey, ToServer(ProcessQueuedRequests));
  }

  lemma {:induction false} ServerWired(n: Net, e: ServerEvent, service: nat -> Time)
    requires Wired(n) && (e.ProcessRequest? || e.RequestCompleted? ==> e.client == n.clientKey)
    ensures var (s, k) := ProcessServer(n.server, n.k, n.serverKey, e, service);
            Wired(n.(server := s, k := k)) && k.clock == n.k.clock && n.k.events <= k.events
  {
    match e
    case ProcessRequest(a, _) => RequestWired(n, a, service);
    case RequestCompleted(attempt, request, _) => CompleteWired(n, attempt, request);
    case ProcessQueuedRequests => ProcessQueuedWired(n, service);
  }

  /** Every step keeps the wiring and never turns the clock back. */
  lemma {:induction false} StepWired(n: Net, l: Label)
    requires Wired(n)
    ensures Wired(Step(n, l)) && n.k.clock <= Step(n, l).k.clock
    ensures Running(n) ==> var p := Advanced(n, l); var r := Step(n, l);
      r == Handle(p, NextEvent(n, l), l) && r.k.clock == p.k.clock && p.k.events <= r.k.events
    ensures Step(n, l).clientKey == n.clientKey && Step(n, l).serverKey == n.serverKey
  {
    if Running(n) {
      PopWired(n, l);
      var p, e := Advanced(n, l), NextEvent(n, l);
      match e.payload {
        case ToClient(c) => ClientWired(p, c, l.delay);
        case ToServer(s) => ServerWired(p, s, l.service);
      }
      DrainNothing(Handle(p, e, l).k);
    } else {
      DryStep(n, l);
    }
  }

  // ----- the system as two components of the kernel -----

  /** From k to k1 by commands to the scheduler. */
  ghost predicate ByCommands(k: Queued, k1: Queued) {
    exists cs :: k1 == Kernel.DoAll(k, cs)
  }

  lemma {:induction false} NoCommand(k: Queued)
    ensures ByCommands(k, k)
  {
    assert k == Kernel.DoAll(k, []);
  }

  lemma {:induction false} TellCommand(k: Queued, delay: Time, to: Uuid, m: Msg)
    ensures ByCommands(k, Tell(k, delay, to, m))
  {
    var c := Kernel.Schedule(delay, to, m);
    assert Kernel.DoAll(k, [c]) == Kernel.DoAll(Kernel.Do(k, c), []);
  }

  lemma {:induction false} CommandsTrans(k: Queued, k1: Queued, k2: Queued)
    requires ByCommands(k, k1) && ByCommands(k1, k2)
    ensures ByCommands(k, k2)
  {
    var a :| k1 == Kernel.DoAll(k, a);
    var b :| k2 == Kernel.DoAll(k1, b);
    KernelRuns.DoAllAppend(k, a, b);
    assert k2 == Kernel.DoAll(k, a + b);
  }

  lemma {:induction false} SendIssues(c: Client, k: Queued, self: Uuid, request: nat, number: nat)
    ensures ByCommands(k, SendAttempt(c, k, self, request, number).1)
  {
    var m := ToClient(RequestTimeout(request, c.nextAttemptId));
    var k1 := Tell(k, c.timeout, self, m);
    var last := ToServer(ProcessRequest(Attempt(c.nextAttemptId, request, number, k.clock), self));
    TellCommand(k, c.timeout, self, m);
    TellCommand(k1, 0, c.server, last);
    CommandsTrans(k, k1, Tell(k1, 0, c.server, last));
  }

  lemma {:induction false} ClientIssues(c: Client, k: Queued, self: Uuid, e: ClientEvent, delay: Time)
    ensures ByCommands(k, ProcessClient(c, k, self, e, delay).1)
  {
    NoCommand(k);
    match e
    case SendRequest => SendIssues(c.(nextRequestId := c.nextRequestId + 1), k, self, c.nextRequestId, 1);
    case ResponseReceived(r) => TellCommand(k, delay, self, ToClient(RetryRequest(r.request)));
    case RequestTimeout(request, _) => TellCommand(k, delay, self, ToClient(RetryRequest(request)));
    case RetryRequest(request) =>
      if request in c.active {
        SendIssues(c.(active := c.active - {request}), k, self, request, c.active[request].attempt.number + 1);
      }
  }

  lemma {:induction false} StartIssues(s: Server, k: Queued, self: Uuid, a: Attempt, client: Uuid, service: nat -> Time)
    ensures ByCommands(k, StartProcessing(s, k, self, a, client, service).1)
  {
    TellCommand(k, service(a.id), self, ToServer(RequestCompleted(a.id, a.request, client)));
  }

  lemma {:induction false} StartNextIssues(s: Server, k: Queued, self: Uuid, service: nat -> Time)
    requires Depth(s) > 0
    ensures ByCommands(k, StartNext(s, k, self, service).1)
  {
    var (q, item) := Dequeue(s.queue.value);
    var client := if item.value.client.Some? then item.value.client.value else NIL;
    StartIssues(s.(queue := Some(q)), k, self, item.value.attempt, client, service);
  }

  lemma {:induction false} ProcessQueuedIssues(s: Server, k: Queued, self: Uuid, service: nat -> Time)
    ensures ByCommands(k, ProcessQueued(s, k, self, service).1)
    decreases Depth(s)
  {
    if !HasCapacity(s) || Depth(s) == 0 {
      NoCommand(k);
    } else {
      var (s1, k1) := StartNext(s, k, self, service);
      StartNextIssues(s, k, self, service);
      ProcessQueuedIssues(s1, k1, self, service);
      CommandsTrans(k, k1, ProcessQueued(s1, k1, self, service).1);
    }
  }

  lemma {:induction false} CompleteIssues(s: Server, k: Queued, self: Uuid, attempt: nat, request: nat, client: Uuid)
    ensures ByCommands(k, Complete(s, k, self, attempt, request, client).1)
  {
    var m := ToClient(ResponseReceived(Response(attempt, request, true)));
    var k1 := Tell(k, ONE_MILLISECOND, client, m);
    TellCommand(k, ONE_MILLISECOND, client, m);
    TellCommand(k1, 0, self, ToServer(ProcessQueuedRequests));
    CommandsTrans(k, k1, Tell(k1, 0, self, ToServer(ProcessQueuedRequests)));
  }

  lemma {:induction false} ServerIssues(s: Server, k: Queued, self: Uuid, e: ServerEvent, service: nat -> Time)
    ensures ByCommands(k, ProcessServer(s, k, self, e, service).1)
  {
    match e
    case ProcessRequest(a, client) =>
      NoCommand(k);
      StartIssues(s, k, self, a, client, service);
      TellCommand(k, ONE_MILLISECOND, client, ToClient(ResponseReceived(Response(a.id, a.request, false))));
    case RequestCompleted(attempt, request, client) => CompleteIssues(s, k, self, attempt, request, client);
    case ProcessQueuedRequests => ProcessQueuedIssues(s, k, self, service);
  }

  /** A step of the system is a step of the kernel: client and server only schedule events. */
  lemma {:induction false} NetStepIsKernelStep(n: Net, l: Label) returns (w: Kernel.Work<Msg>)
    requires Wired(n)
    ensures Step(n, l).k == Kernel.Step(n.k, Kernel.Label(l.pick, w))
  {
    w := Kernel.Work([], true, Kernel.Unit);
    if Running(n) {
      PopWired(n, l);
      var p, e := Advanced(n, l), NextEvent(n, l);
      match e.payload {
        case ToClient(c) => ClientIssues(n.client, p.k, n.clientKey, c, l.delay);
        case ToServer(s) => ServerIssues(n.server, p.k, n.serverKey, s, l.service);
      }
      var cs :| Handle(p, e, l).k == Kernel.DoAll(p.k, cs);
      w := Kernel.Work(cs, true, Kernel.Unit);
    }
  }

  /** So every run of the system is a run of the kernel. */
  lemma {:induction false} NetRunIsKernelRun(n: Net, ls: seq<Label>) returns (ms: seq<Kernel.Move<Msg>>)
    requires Wired(n)
    ensures Run(n, ls).k == Kernel.Run(n.k, ms) && |ms| == |ls|
    decreases |ls|
  {
    if ls == [] {
      ms := [];
    } else {
      var w := NetStepIsKernelStep(n, ls[0]);
      StepWired(n, ls[0]);
      var rest := NetRunIsKernelRun(Step(n, ls[0]), ls[1..]);
      ms := [Kernel.Turn(Kernel.Label(ls[0].pick, w))] + rest;
      assert ms[1..] == rest;
    }
  }

  // ----- the client: one request -----

  function Extra(m: Option<Msg>, weight: Msg -> nat): nat {
    if m.Some? then weight(m.value) else 0
  }

  /**
   * What holds of request r with so many retries and timeouts of its current attempt ahead of it. An
   * active request has sent its attempts under consecutive numbers, each retry it was granted is
   * either sent or ahead, and its retry or the timeout of its current attempt is ahead.
   */
  predicate Tracked(c: Client, r: nat, retries: nat, timeouts: nat) {
    && (r >= c.nextRequestId ==> r !in c.active && retries == 0)
    && (r in c.active ==>
          var a := c.active[r];
          && a.attempt.request == r && a.budget.max == c.maxRetries && a.budget.current <= c.maxRetries
          && 1 <= a.attempt.number && a.attempt.number + retries == 1 + a.budget.current
          && retries + timeouts > 0)
  }

  /** The current attempt of a request, 0 without one. */
  function CurrentId(c: Client, r: nat): nat {
    if r in c.active then c.active[r].attempt.id else 0
  }

  /** What is ahead of request r is queued, or is the message m being processed. */
  ghost function RetriesAhead(k: Queued, m: Option<Msg>, r: nat): nat {
    Weighed(k, IsRetry(r)) + Extra(m, IsRetry(r))
  }

  ghost function TimeoutsAhead(k: Queued, m: Option<Msg>, r: nat, a: nat): nat {
    Weighed(k, IsTimeout(r, a)) + Extra(m, IsTimeout(r, a))
  }

  ghost predicate RequestOk(c: Client, k: Queued, m: Option<Msg>, r: nat) {
    Tracked(c, r, RetriesAhead(k, m, r), TimeoutsAhead(k, m, r, CurrentId(c, r)))
  }

  lemma {:induction false} SendAdds(c: Client, k: Queued, self: Uuid, request: nat, number: nat, weight: Msg -> nat)
    requires QueueOk(k)
    ensures var (_, k1, attempt) := SendAttempt(c, k, self, request, number);
      QueueOk(k1)
        && Weighed(k1, weight)
           == Weighed(k, weight) + weight(ToClient(RequestTimeout(request, c.nextAttemptId)))
             + weight(ToServer(ProcessRequest(attempt, self)))
  {
    var m := ToClient(RequestTimeout(request, c.nextAttemptId));
    TellAdds(k, c.timeout, self, m, weight);
    TellAdds(Tell(k, c.timeout, self, m), 0, c.server,
      ToServer(ProcessRequest(Attempt(c.nextAttemptId, request, number, k.clock), self)), weight);
  }

  /** Sending puts nothing more ahead of request r than the timeout of the attempt, if it is one of r's. */
  lemma {:induction false} SendAhead(c: Client, k: Queued, self: Uuid, request: nat, number: nat, r: nat, a: nat)
    requires QueueOk(k)
    ensures var k1 := SendAttempt(c, k, self, request, number).1;
            && RetriesAhead(k1, None, r) == RetriesAhead(k, None, r)
            && TimeoutsAhead(k1, None, r, a)
            == TimeoutsAhead(k, None, r, a) + (if r == request && a == c.nextAttemptId then 1 else 0)
  {
    SendAdds(c, k, self, request, number, IsRetry(r));
    SendAdds(c, k, self, request, number, IsTimeout(r, a));
  }

  lemma {:induction false} RetryAhead(k: Queued, delay: Time, self: Uuid, request: nat, r: nat, a: nat)
    requires QueueOk(k)
    ensures var k1 := Tell(k, delay, self, ToClient(RetryRequest(request)));
            && RetriesAhead(k1, None, r) == RetriesAhead(k, None, r) + (if r == request then 1 else 0)
            && TimeoutsAhead(k1, None, r, a) == TimeoutsAhead(k, None, r, a)
  {
    TellAdds(k, delay, self, ToClient(RetryRequest(request)), IsRetry(r));
    TellAdds(k, delay, self, ToClient(RetryRequest(request)), IsTimeout(r, a));
  }

  /** A processed event was ahead of the request it is about. */
  lemma {:induction false} EventAhead(k: Queued, e: ClientEvent, r: nat, a: nat)
    ensures RetriesAhead(k, Some(ToClient(e)), r) == RetriesAhead(k, None, r) + (if e == RetryRequest(r) then 1 else 0)
    ensures TimeoutsAhead(k, Some(ToClient(e)), r, a)
         == TimeoutsAhead(k, None, r, a) + (if e == RequestTimeout(r, a) then 1 else 0)
  {}

  lemma {:induction false} SendTracked(c: Client, k: Queued, self: Uuid, r: nat, retries: nat, timeouts: nat)
    requires Tracked(c, r, retries, timeouts)
    ensures Tracked(HandleSend(c, k, self).0, r, retries, if r == c.nextRequestId then 1 else timeouts)
  {}

  lemma {:induction false} SendRequestOk(c: Client, k: Queued, self: Uuid, r: nat)
    requires QueueOk(k) && RequestOk(c, k, Some(ToClient(SendRequest)), r)
    ensures var (c1, k1) := HandleSend(c, k, self); RequestOk(c1, k1, None, r)
  {
    var a := if r == c.nextRequestId then c.nextAttemptId else CurrentId(c, r);
    EventAhead(k, SendRequest, r, CurrentId(c, r));
    SendTracked(c, k, self, r, RetriesAhead(k, None, r), TimeoutsAhead(k, None, r, CurrentId(c, r)));
    SendAhead(c.(nextRequestId := c.nextRequestId + 1), k, self, c.nextRequestId, 1, r, a);
    SendTracked(c, k, self, r, RetriesAhead(k, None, r), TimeoutsAhead(k, None, r, a));
  }

  lemma {:induction false} RetryOrFailTracked(
      c: Client, k: Queued, self: Uuid, request: nat, delay: Time, r: nat, retries: nat, timeouts: nat, left: nat)
    requires request in c.active && Tracked(c, r, retries, timeouts) && (r != request ==> left == timeouts)
    ensures var (c1, k1) := RetryOrFail(c, k, self, request, delay);
            && (k1 == k ==> Tracked(c1, r, retries, left))
            && (k1 != k ==> Tracked(c1, r, retries + (if r == request then 1 else 0), left))
            && (k1 != k ==> k1 == Tell(k, delay, self, ToClient(RetryRequest(request))))
            && (r in c1.active ==> CurrentId(c1, r) == CurrentId(c, r))
  {}

  lemma {:induction false} RetryOrFailOk(
      c: Client, k: Queued, self: Uuid, e: ClientEvent, request: nat, delay: Time, r: nat)
    requires QueueOk(k) && RequestOk(c, k, Some(ToClient(e)), r) && request in c.active && !e.RetryRequest?
    requires e.RequestTimeout? ==> e.request == request
    ensures var (c1, k1) := RetryOrFail(c, k, self, request, delay); RequestOk(c1, k1, None, r)
  {
    var a := CurrentId(c, r);
    EventAhead(k, e, r, a);
    RetryAhead(k, delay, self, request, r, a);
    RetryOrFailTracked(c, k, self, request, delay, r, RetriesAhead(k, Some(ToClient(e)), r),
      TimeoutsAhead(k, Some(ToClient(e)), r, a), TimeoutsAhead(k, None, r, a));
  }

  lemma {:induction false} RetryTracked(
      c: Client, k: Queued, self: Uuid, request: nat, r: nat, retries: nat, timeouts: nat, more: nat)
    requires request in c.active && Tracked(c, r, retries + (if r == request then 1 else 0), timeouts)
    requires if r == request then more > 0 else more == timeouts
    ensures Tracked(HandleRetry(c, k, self, request).0, r, retries, more)
  {}

  lemma {:induction false} RetryOkFor(c: Client, k: Queued, k1: Queued, self: Uuid, request: nat, r: nat, a: nat)
    requires RequestOk(c, k, Some(ToClient(RetryRequest(request))), r) && request in c.active
    requires k1 == HandleRetry(c, k, self, request).1
    requires a == (if r == request then c.nextAttemptId else CurrentId(c, r))
    requires RetriesAhead(k1, None, r) == RetriesAhead(k, None, r)
    requires TimeoutsAhead(k1, None, r, a) == TimeoutsAhead(k, None, r, a) + (if r == request then 1 else 0)
    ensures RequestOk(HandleRetry(c, k, self, request).0, k1, None, r)
  {
    EventAhead(k, RetryRequest(request), r, CurrentId(c, r));
    RetryTracked(c, k, self, request, r, RetriesAhead(k, None, r), TimeoutsAhead(k, None, r, CurrentId(c, r)),
      TimeoutsAhead(k1, None, r, a));
    RetryId(c, k, self, request, r);
  }

  lemma {:induction false} ResendAhead(c: Client, k: Queued, self: Uuid, request: nat, r: nat, a: nat)
    requires QueueOk(k) && request in c.active
    ensures var k1 := HandleRetry(c, k, self, request).1;
            && RetriesAhead(k1, None, r) == RetriesAhead(k, None, r)
            && TimeoutsAhead(k1, None, r, a)
            == TimeoutsAhead(k, None, r, a) + (if r == request && a == c.nextAttemptId then 1 else 0)
  {
    SendAhead(c.(active := c.active - {request}), k, self, request, c.active[request].attempt.number + 1, r, a);
  }

  lemma {:induction false} RetryId(c: Client, k: Queued, self: Uuid, request: nat, r: nat)
    requires request in c.active
    ensures CurrentId(HandleRetry(c, k, self, request).0, r) == if r == request then c.nextAttemptId
            else CurrentId(c, r)
  {}

  lemma {:induction false} RetryOk(c: Client, k: Queued, self: Uuid, request: nat, r: nat)
    requires QueueOk(k) && RequestOk(c, k, Some(ToClient(RetryRequest(request))), r)
    ensures var (c1, k1) := HandleRetry(c, k, self, request); RequestOk(c1, k1, None, r)
  {
    if request in c.active {
      var a := if r == request then c.nextAttemptId else CurrentId(c, r);
      ResendAhead(c, k, self, request, r, a);
      RetryOkFor(c, k, HandleRetry(c, k, self, request).1, self, request, r, a);
    } else {
      EventAhead(k, RetryRequest(request), r, CurrentId(c, r));
    }
  }

  lemma {:induction false} ResponseOk(c: Client, k: Queued, self: Uuid, response: Response, delay: Time, r: nat)
    requires QueueOk(k) && RequestOk(c, k, Some(ToClient(ResponseReceived(response))), r)
    ensures var (c1, k1) := HandleResponse(c, k, self, response, delay); RequestOk(c1, k1, None, r)
  {
    EventAhead(k, ResponseReceived(response), r, CurrentId(c, r));
    if response.request in c.active && !response.success {
      RetryOrFailOk(c, k, self, ResponseReceived(response), response.request, delay, r);
    }
  }

  lemma {:induction false} TimeoutOk(c: Client, k: Queued, self: Uuid, request: nat, attempt: nat, delay: Time, r: nat)
    requires QueueOk(k) && RequestOk(c, k, Some(ToClient(RequestTimeout(request, attempt))), r)
    ensures var (c1, k1) := HandleTimeout(c, k, self, request, attempt, delay); RequestOk(c1, k1, None, r)
  {
    EventAhead(k, RequestTimeout(request, attempt), r, CurrentId(c, r));
    if request in c.active && c.active[request].attempt.id == attempt {
      RetryOrFailOk(c, k, self, RequestTimeout(request, attempt), request, delay, r);
    }
  }

  lemma {:induction false} ClientRequestOk(c: Client, k: Queued, self: Uuid, e: ClientEvent, delay: Time, r: nat)
    requires QueueOk(k) && RequestOk(c, k, Some(ToClient(e)), r)
    ensures var (c1, k1) := ProcessClient(c, k, self, e, delay); RequestOk(c1, k1, None, r)
  {
    match e
    case SendRequest => SendRequestOk(c, k, self, r);
    case ResponseReceived(response) => ResponseOk(c, k, self, response, delay, r);
    case RequestTimeout(request, attempt) => TimeoutOk(c, k, self, request, attempt, delay, r);
    case RetryRequest(request) => RetryOk(c, k, self, request, r);
  }

  // ----- what the server adds to the queue -----

  ghost predicate EachCompletion(weight: Msg -> nat, each: nat) {
    forall a, r, c :: weight(ToServer(RequestCompleted(a, r, c))) == each
  }

  /** Starting attempts moves them from the queue to threads, until there is no thread or no attempt left. */
  lemma {:induction false} ProcessQueuedMoves(s: Server, k: Queued, self: Uuid, service: nat -> Time)
    ensures var s1 := ProcessQueued(s, k, self, service).0;
      && s1.activeThreads + Depth(s1) == s.activeThreads + Depth(s) && s1.activeThreads >= s.activeThreads
      && (s.activeThreads <= s.capacity ==> s1.activeThreads <= s.capacity)
      && s1.capacity == s.capacity && s1.processed == s.processed && s1.rejected == s.rejected
      && (!HasCapacity(s1) || Depth(s1) == 0)
    decreases Depth(s)
  {
    if HasCapacity(s) && Depth(s) > 0 {
      var (s2, k2) := StartNext(s, k, self, service);
      ProcessQueuedMoves(s2, k2, self, service);
    }
  }

  lemma {:induction false} StartedAdds(
      s: Server, k: Queued, self: Uuid, service: nat -> Time, weight: Msg -> nat, each: nat)
    requires QueueOk(k) && Depth(s) > 0 && EachCompletion(weight, each)
    ensures var (s1, k1) := StartNext(s, k, self, service); Added(k, k1, weight, each)
  {
    var item := Dequeue(s.queue.value).1;
    var client := if item.value.client.Some? then item.value.client.value else NIL;
    TellAdds(k, service(item.value.attempt.id), self,
      ToServer(RequestCompleted(item.value.attempt.id, item.value.attempt.request, client)), weight);
  }

  /** The queue is in order, and weighs n more. */
  ghost predicate Added(k: Queued, k1: Queued, weight: Msg -> nat, n: nat) {
    QueueOk(k1) && Weighed(k1, weight) == Weighed(k, weight) + n
  }

  /** A look at the queue that can start something starts one attempt and looks again. */
  lemma {:induction false} FirstStart(
      s: Server, k: Queued, self: Uuid, service: nat -> Time, weight: Msg -> nat, each: nat)
    returns (s2: Server, k2: Queued)
    requires QueueOk(k) && EachCompletion(weight, each) && HasCapacity(s) && Depth(s) > 0
    ensures ProcessQueued(s, k, self, service) == ProcessQueued(s2, k2, self, service)
    ensures Depth(s2) == Depth(s) - 1 && Added(k, k2, weight, each)
  {
    StartedAdds(s, k, self, service, weight, each);
    s2, k2 := StartNext(s, k, self, service).0, StartNext(s, k, self, service).1;
  }

  /** Each state of the queue weighs so much more than the one before. */
  ghost predicate Climbs(ks: seq<Queued>, weight: Msg -> nat, each: nat) {
    forall i :: 0 <= i < |ks| - 1 ==> Added(ks[i], ks[i + 1], weight, each)
  }

  /** Each started attempt schedules one completion: the queue before and after each start. */
  lemma {:induction false} ProcessQueuedAdds(
      s: Server, k: Queued, self: Uuid, service: nat -> Time, weight: Msg -> nat, each: nat)
    returns (started: nat, ks: seq<Queued>)
    requires QueueOk(k) && EachCompletion(weight, each)
    ensures |ks| == started + 1 && ks[0] == k && ks[started] == ProcessQueued(s, k, self, service).1
    ensures QueueOk(ks[started]) && Climbs(ks, weight, each)
    ensures Depth(ProcessQueued(s, k, self, service).0) + started == Depth(s)
    decreases Depth(s)
  {
    if !HasCapacity(s) || Depth(s) == 0 {
      started, ks := 0, [k];
    } else {
      var s2, k2 := FirstStart(s, k, self, service, weight, each);
      var more, rest := ProcessQueuedAdds(s2, k2, self, service, weight, each);
      started, ks := more + 1, [k] + rest;
    }
  }

  lemma {:induction false} Progression(xs: seq<nat>, each: nat)
    requires xs != [] && forall i :: 0 <= i < |xs| - 1 ==> xs[i + 1] == xs[i] + each
    ensures xs[|xs| - 1] == xs[0] + each * (|xs| - 1)
    decreases |xs|
  {
    if |xs| > 1 {
      Progression(xs[1..], each);
      assert each * (|xs| - 1) == each + each * (|xs| - 2);
    }
  }

  lemma {:induction false} ClimbWeighs(ks: seq<Queued>, weight: Msg -> nat, each: nat, n: nat)
    requires |ks| == n + 1 && Climbs(ks, weight, each)
    ensures Weighed(ks[n], weight) == Weighed(ks[0], weight) + each * n
  {
    var xs := seq(n + 1, (i: int) requires 0 <= i <= n => Weighed(ks[i], weight));
    Progression(xs, each);
  }

  /** A look at the queue adds nothing but completions. */
  lemma {:induction false} QueuedWeighs(
      s: Server, k: Queued, self: Uuid, service: nat -> Time, weight: Msg -> nat, each: nat)
    requires QueueOk(k) && EachCompletion(weight, each)
    ensures var (s1, k1) := ProcessQueued(s, k, self, service);
            && Depth(s1) <= Depth(s) && QueueOk(k1)
            && Weighed(k1, weight) == Weighed(k, weight) + each * (Depth(s) - Depth(s1))
  {
    var started, ks := ProcessQueuedAdds(s, k, self, service, weight, each);
    ClimbWeighs(ks, weight, each, started);
  }

  lemma {:induction false} RequestAdds(
      s: Server, k: Queued, self: Uuid, a: Attempt, client: Uuid, service: nat -> Time, weight: Msg -> nat)
    requires QueueOk(k)
    ensures var (s1, k1) := HandleRequest(s, k, self, a, client, service);
            && QueueOk(k1)
            && Weighed(k1, weight) == Weighed(k, weight)
               + (if HasCapacity(s) then weight(ToServer(RequestCompleted(a.id, a.request, client)))
                  else if s1.rejected > s.rejected then
                    weight(ToClient(ResponseReceived(Response(a.id, a.request, false))))
                  else 0)
  {
    TellAdds(k, service(a.id), self, ToServer(RequestCompleted(a.id, a.request, client)), weight);
    TellAdds(k, ONE_MILLISECOND, client, ToClient(ResponseReceived(Response(a.id, a.request, false))), weight);
  }

  /** The server schedules no client retries or timeouts. */
  lemma {:induction false} ServerSilent(
      s: Server, k: Queued, self: Uuid, e: ServerEvent, service: nat -> Time, weight: Msg -> nat)
    requires QueueOk(k) && (forall r :: weight(ToClient(ResponseReceived(r))) == 0)
             && forall x :: weight(ToServer(x)) == 0
    ensures var (_, k1) := ProcessServer(s, k, self, e, service);
            QueueOk(k1) && Weighed(k1, weight) == Weighed(k, weight)
  {
    match e
    case ProcessRequest(a, client) => RequestAdds(s, k, self, a, client, service, weight);
    case RequestCompleted(attempt, request, client) => CompleteAdds(s, k, self, attempt, request, client, weight);
    case ProcessQueuedRequests => QueuedWeighs(s, k, self, service, weight, 0);
  }

  lemma {:induction false} ServerRequestOk(
      c: Client, s: Server, k: Queued, self: Uuid, e: ServerEvent, service: nat -> Time, r: nat)
    requires QueueOk(k) && RequestOk(c, k, Some(ToServer(e)), r)
    ensures RequestOk(c, ProcessServer(s, k, self, e, service).1, None, r)
  {
    ServerAhead(s, k, self, e, service, r, CurrentId(c, r));
  }

  lemma {:induction false} ServerAhead(
      s: Server, k: Queued, self: Uuid, e: ServerEvent, service: nat -> Time, r: nat, a: nat)
    requires QueueOk(k)
    ensures var k1 := ProcessServer(s, k, self, e, service).1;
            && RetriesAhead(k1, None, r) == RetriesAhead(k, Some(ToServer(e)), r)
            && TimeoutsAhead(k1, None, r, a) == TimeoutsAhead(k, Some(ToServer(e)), r, a)
  {
    ServerSilent(s, k, self, e, service, IsRetry(r));
    ServerSilent(s, k, self, e, service, IsTimeout(r, a));
  }

  /** The message m has moved from the queue k into processing, and p is left of the queue. */
  lemma {:induction false} RequestMoves(c: Client, k: Queued, p: Queued, m: Msg, r: nat, a: nat)
    requires RequestOk(c, k, None, r) && a == CurrentId(c, r)
    requires Weighed(k, IsRetry(r)) == IsRetry(r)(m) + Weighed(p, IsRetry(r))
    requires Weighed(k, IsTimeout(r, a)) == IsTimeout(r, a)(m) + Weighed(p, IsTimeout(r, a))
    ensures RequestOk(c, p, Some(m), r)
  {
    assert RetriesAhead(p, Some(m), r) == RetriesAhead(k, None, r);
    assert TimeoutsAhead(p, Some(m), r, a) == TimeoutsAhead(k, None, r, a);
  }

  lemma {:induction false} RequestPopped(n: Net, l: Label, r: nat)
    requires Wired(n) && Running(n) && RequestOk(n.client, n.k, None, r)
    ensures RequestOk(n.client, Advanced(n, l).k, Some(NextEvent(n, l).payload), r)
  {
    var a := CurrentId(n.client, r);
    PopTakes(n, l, IsRetry(r));
    PopTakes(n, l, IsTimeout(r, a));
    RequestMoves(n.client, n.k, Advanced(n, l).k, NextEvent(n, l).payload, r, a);
  }

  /** Every step keeps what holds of each request. */
  lemma {:induction false} StepRequestOk(n: Net, l: Label, r: nat)
    requires Wired(n) && RequestOk(n.client, n.k, None, r)
    ensures RequestOk(Step(n, l).client, Step(n, l).k, None, r)
  {
    if Running(n) {
      StepWired(n, l);
      PopWired(n, l);
      RequestPopped(n, l, r);
      var p, e := Advanced(n, l), NextEvent(n, l);
      match e.payload {
        case ToClient(c) => ClientRequestOk(n.client, p.k, n.clientKey, c, l.delay, r);
        case ToServer(s) => ServerRequestOk(n.client, n.server, p.k, n.serverKey, s, l.service, r);
      }
    } else {
      DryStep(n, l);
    }
  }

  // ----- the client: totals -----

  /** How many more attempts a request may send. */
  function Room(max: nat): Active -> nat {
    (a: Active) => if a.attempt.number <= 1 + max then 1 + max - a.attempt.number else 0
  }

  /** Requests are successes, permanent failures or still active; attempts stay within what is allowed. */
  predicate Accounts(c: Client, room: nat, allowed: nat) {
    && c.requestsSent == c.successes + c.failures + |c.active|
    && c.attemptsSent + room <= allowed
  }

  /** The limit allows 1 + maxRetries attempts for each request sent. */
  ghost predicate Accounted(c: Client) {
    Accounts(c, Total(c.active, Room(c.maxRetries)), Times(1 + c.maxRetries, c.requestsSent))
  }

  lemma {:induction false} SendRoom(c: Client, k: Queued, self: Uuid)
    requires c.nextRequestId !in c.active
    ensures var r := HandleSend(c, k, self).0;
      |r.active| == |c.active| + 1
        && Total(r.active, Room(c.maxRetries)) == Total(c.active, Room(c.maxRetries)) + c.maxRetries
  {
    TotalInsert(c.active, c.nextRequestId, HandleSend(c, k, self).0.active[c.nextRequestId], Room(c.maxRetries));
  }

  lemma {:induction false} SendAccounted(c: Client, k: Queued, self: Uuid)
    requires Accounted(c) && c.nextRequestId !in c.active
    ensures Accounted(HandleSend(c, k, self).0)
  {
    SendRoom(c, k, self);
    TimesNext(1 + c.maxRetries, c.requestsSent);
    SendAccounts(c, k, self, Total(c.active, Room(c.maxRetries)), Times(1 + c.maxRetries, c.requestsSent));
  }

  lemma {:induction false} SendAccounts(c: Client, k: Queued, self: Uuid, room: nat, allowed: nat)
    requires Accounts(c, room, allowed) && c.nextRequestId !in c.active
    requires |HandleSend(c, k, self).0.active| == |c.active| + 1
    ensures Accounts(HandleSend(c, k, self).0, room + c.maxRetries, allowed + 1 + c.maxRetries)
  {}

  /** A spent retry leaves the totals alone. */
  lemma {:induction false} SpendAccounted(c: Client, request: nat)
    requires Accounted(c) && request in c.active
    ensures Accounted(Retrying(c, request))
  {
    TotalReplace(c.active, request, Retrying(c, request).active[request], Room(c.maxRetries));
  }

  /** An ended request frees its room. */
  lemma {:induction false} FailureAccounted(c: Client, request: nat)
    requires Accounted(c) && request in c.active
    ensures Accounted(Fail(c, request))
  {
    TotalReplace(c.active, request, c.active[request], Room(c.maxRetries));
  }

  lemma {:induction false} SuccessAccounted(c: Client, request: nat)
    requires Accounted(c) && request in c.active
    ensures Accounted(Succeed(c, request))
  {
    TotalReplace(c.active, request, c.active[request], Room(c.maxRetries));
  }

  lemma {:induction false} RetryOrFailAccounted(c: Client, k: Queued, self: Uuid, request: nat, delay: Time)
    requires Accounted(c) && request in c.active
    ensures Accounted(RetryOrFail(c, k, self, request, delay).0)
  {
    if Spend(c.active[request].budget, false).1 {
      SpendAccounted(c, request);
    } else {
      FailureAccounted(c, request);
    }
  }

  lemma {:induction false} RetryRoom(c: Client, k: Queued, self: Uuid, request: nat)
    requires request in c.active && c.active[request].attempt.number <= c.maxRetries
    ensures var r := HandleRetry(c, k, self, request).0;
      |r.active| == |c.active| && Total(r.active, Room(c.maxRetries)) + 1 == Total(c.active, Room(c.maxRetries))
  {
    TotalReplace(c.active, request, HandleRetry(c, k, self, request).0.active[request], Room(c.maxRetries));
  }

  lemma {:induction false} RetryAccounted(c: Client, k: Queued, self: Uuid, request: nat)
    requires Accounted(c) && request in c.active && c.active[request].attempt.number <= c.maxRetries
    ensures Accounted(HandleRetry(c, k, self, request).0)
  {
    RetryRoom(c, k, self, request);
    AccountsMove(c, HandleRetry(c, k, self, request).0);
  }

  /** One more attempt for one less room. */
  lemma {:induction false} AccountsMove(c: Client, r: Client)
    requires Accounted(c) && r.maxRetries == c.maxRetries && r.requestsSent == c.requestsSent
             && r.attemptsSent == c.attemptsSent + 1
    requires r.successes == c.successes && r.failures == c.failures && |r.active| == |c.active|
    requires Total(r.active, Room(c.maxRetries)) + 1 == Total(c.active, Room(c.maxRetries))
    ensures Accounted(r)
  {}

  lemma {:induction false} ResponseAccounted(c: Client, k: Queued, self: Uuid, r: Response, delay: Time)
    requires Accounted(c)
    ensures Accounted(HandleResponse(c, k, self, r, delay).0)
  {
    if r.request in c.active {
      if r.success {
        SuccessAccounted(c, r.request);
      } else {
        RetryOrFailAccounted(c, k, self, r.request, delay);
      }
    }
  }

  lemma {:induction false} ClientAccounted(c: Client, k: Queued, self: Uuid, e: ClientEvent, delay: Time)
    requires Accounted(c)
    requires e.SendRequest? ==> c.nextRequestId !in c.active
    requires e.RetryRequest? && e.request in c.active ==> c.active[e.request].attempt.number <= c.maxRetries
    ensures Accounted(ProcessClient(c, k, self, e, delay).0)
  {
    match e
    case SendRequest => SendAccounted(c, k, self);
    case ResponseReceived(r) => ResponseAccounted(c, k, self, r, delay);
    case RequestTimeout(request, attempt) =>
      if request in c.active && c.active[request].attempt.id == attempt {
        RetryOrFailAccounted(c, k, self, request, delay);
      }
    case RetryRequest(request) => if request in c.active { RetryAccounted(c, k, self, request); }
  }

  /** What the accounts need to know of the request an event is about. */
  lemma {:induction false} RequestAllows(c: Client, k: Queued, e: ClientEvent)
    requires e.SendRequest? ==> RequestOk(c, k, Some(ToClient(e)), c.nextRequestId)
    requires e.RetryRequest? ==> RequestOk(c, k, Some(ToClient(e)), e.request)
    ensures e.SendRequest? ==> c.nextRequestId !in c.active
    ensures e.RetryRequest? && e.request in c.active ==> c.active[e.request].attempt.number <= c.maxRetries
  {}

  // ----- the server -----

  /**
   * Every attempt sent is on its way, processed, rejected, in a thread or in the queue; the busy
   * threads are exactly the scheduled completions, and no more than there are.
   */
  ghost predicate Balanced(s: Server, k: Queued, m: Option<Msg>, attemptsSent: nat) {
    && attemptsSent
       == Weighed(k, IsRequest()) + Extra(m, IsRequest()) + s.processed + s.rejected + s.activeThreads + Depth(s)
    && s.activeThreads == Weighed(k, IsCompletion()) + Extra(m, IsCompletion())
    && s.activeThreads <= s.capacity
  }

  lemma {:induction false} RetryAdds(c: Client, k: Queued, self: Uuid, request: nat, weight: Msg -> nat, each: nat)
    requires QueueOk(k) && (forall x :: weight(ToClient(x)) == 0)
             && forall a, s :: weight(ToServer(ProcessRequest(a, s))) == each
    ensures var (c1, k1) := HandleRetry(c, k, self, request);
      && c1.attemptsSent == c.attemptsSent + (if request in c.active then 1 else 0)
      && Weighed(k1, weight) == Weighed(k, weight) + if request in c.active then each else 0
  {
    if request in c.active {
      SendAdds(c.(active := c.active - {request}), k, self, request, c.active[request].attempt.number + 1, weight);
    }
  }

  /** The client tells the server of each attempt it sends, and of nothing else. */
  lemma {:induction false} ClientAdds(
      c: Client, k: Queued, self: Uuid, e: ClientEvent, delay: Time, weight: Msg -> nat, each: nat)
    requires QueueOk(k) && (forall x :: weight(ToClient(x)) == 0)
             && forall a, s :: weight(ToServer(ProcessRequest(a, s))) == each
    ensures var (c1, k1) := ProcessClient(c, k, self, e, delay);
      && c.attemptsSent <= c1.attemptsSent <= c.attemptsSent + 1
      && Weighed(k1, weight) == Weighed(k, weight) + if c1.attemptsSent > c.attemptsSent then each else 0
  {
    match e
    case SendRequest => SendAdds(c.(nextRequestId := c.nextRequestId + 1), k, self, c.nextRequestId, 1, weight);
    case ResponseReceived(r) => TellAdds(k, delay, self, ToClient(RetryRequest(r.request)), weight);
    case RequestTimeout(request, _) => TellAdds(k, delay, self, ToClient(RetryRequest(request)), weight);
    case RetryRequest(request) => RetryAdds(c, k, self, request, weight, each);
  }

  lemma {:induction false} ClientBalanced(s: Server, c: Client, k: Queued, self: Uuid, e: ClientEvent, delay: Time)
    requires QueueOk(k) && Balanced(s, k, Some(ToClient(e)), c.attemptsSent)
    ensures var (c1, k1) := ProcessClient(c, k, self, e, delay); Balanced(s, k1, None, c1.attemptsSent)
  {
    ClientAdds(c, k, self, e, delay, IsRequest(), 1);
    ClientAdds(c, k, self, e, delay, IsCompletion(), 0);
  }

  lemma {:induction false} RequestBalanced(
      s: Server, k: Queued, self: Uuid, a: Attempt, client: Uuid, service: nat -> Time, attemptsSent: nat)
    requires QueueOk(k) && Balanced(s, k, Some(ToServer(ProcessRequest(a, client))), attemptsSent)
    ensures var (s1, k1) := HandleRequest(s, k, self, a, client, service); Balanced(s1, k1, None, attemptsSent)
  {
    RequestAdds(s, k, self, a, client, service, IsRequest());
    RequestAdds(s, k, self, a, client, service, IsCompletion());
  }

  lemma {:induction false} CompleteAdds(
      s: Server, k: Queued, self: Uuid, attempt: nat, request: nat, client: Uuid, weight: Msg -> nat)
    requires QueueOk(k)
    ensures var (s1, k1) := Complete(s, k, self, attempt, request, client);
      QueueOk(k1)
        && Weighed(k1, weight)
           == Weighed(k, weight) + weight(ToClient(ResponseReceived(Response(attempt, request, true))))
                     + if HasCapacity(s1) && Depth(s1) > 0 then weight(ToServer(ProcessQueuedRequests)) else 0
  {
    var m := ToClient(ResponseReceived(Response(attempt, request, true)));
    TellAdds(k, ONE_MILLISECOND, client, m, weight);
    TellAdds(Tell(k, ONE_MILLISECOND, client, m), 0, self, ToServer(ProcessQueuedRequests), weight);
  }

  lemma {:induction false} CompleteBalanced(
      s: Server, k: Queued, self: Uuid, attempt: nat, request: nat, client: Uuid, attemptsSent: nat)
    requires QueueOk(k) && Balanced(s, k, Some(ToServer(RequestCompleted(attempt, request, client))), attemptsSent)
    ensures var (s1, k1) := Complete(s, k, self, attempt, request, client); Balanced(s1, k1, None, attemptsSent)
    ensures s.activeThreads > 0
  {
    CompleteAdds(s, k, self, attempt, request, client, IsRequest());
    CompleteAdds(s, k, self, attempt, request, client, IsCompletion());
  }

  lemma {:induction false} QueuedBalanced(s: Server, k: Queued, self: Uuid, service: nat -> Time, attemptsSent: nat)
    requires QueueOk(k) && Balanced(s, k, Some(ToServer(ProcessQueuedRequests)), attemptsSent)
    ensures var (s1, k1) := ProcessQueued(s, k, self, service); Balanced(s1, k1, None, attemptsSent)
  {
    QueuedWeighs(s, k, self, service, IsRequest(), 0);
    QueuedWeighs(s, k, self, service, IsCompletion(), 1);
    ProcessQueuedMoves(s, k, self, service);
  }

  /** In particular the thread count is never decremented below zero. */
  lemma {:induction false} ServerBalanced(
      s: Server, k: Queued, self: Uuid, e: ServerEvent, service: nat -> Time, attemptsSent: nat)
    requires QueueOk(k) && Balanced(s, k, Some(ToServer(e)), attemptsSent)
    ensures var (s1, k1) := ProcessServer(s, k, self, e, service); Balanced(s1, k1, None, attemptsSent)
    ensures e.RequestCompleted? ==> s.activeThreads > 0
  {
    match e
    case ProcessRequest(a, client) => RequestBalanced(s, k, self, a, client, service, attemptsSent);
    case RequestCompleted(attempt, request, client) =>
      CompleteBalanced(s, k, self, attempt, request, client, attemptsSent);
    case ProcessQueuedRequests => QueuedBalanced(s, k, self, service, attemptsSent);
  }

  ghost predicate IsWakeNow(e: Event, k: Queued) {
    e.ComponentEvent? && e.payload == ToServer(ProcessQueuedRequests) && e.time == k.clock
  }

  /**
   * Service is not first come, first served: between the completion that frees a thread and the look
   * at the queue it asks for, a new request takes the thread and leaves those waiting where they are.
   */
  lemma {:induction false} NewcomerOvertakes(
      s: Server, k: Queued, self: Uuid, attempt: nat, request: nat, client: Uuid, a: Attempt, service: nat -> Time)
    requires s.activeThreads == s.capacity > 0 && Depth(s) > 0
    ensures var (s1, k1) := Complete(s, k, self, attempt, request, client);
            var (s2, k2) := HandleRequest(s1, k1, self, a, client, service);
            && HasCapacity(s1) && !HasCapacity(s2) && s2.queue == s.queue
            && exists e <- k2.events ::
                 && e.ComponentEvent? && e.eventId > k1.nextEvent
                 && e.payload == ToServer(RequestCompleted(a.id, a.request, client))
    ensures var (s1, k1) := Complete(s, k, self, attempt, request, client);
            exists e <- k1.events :: IsWakeNow(e, k1)
  {
    var (s1, k1) := Complete(s, k, self, attempt, request, client);
    var wake := Kernel.ComponentEvent(k1.nextEvent, k.clock, self, ToServer(ProcessQueuedRequests));
    assert wake in k1.events && IsWakeNow(wake, k1);
    var done := ToServer(RequestCompleted(a.id, a.request, client));
    var e := Kernel.ComponentEvent(k1.nextEvent + 1, Plus(k1.clock, service(a.id)), self, done);
    assert e in HandleRequest(s1, k1, self, a, client, service).1.events;
  }

  /** A waiting request never faces an idle thread without the queue being looked at in this very instant. */
  ghost predicate QueueWatched(n: Net) {
    HasCapacity(n.server) && Depth(n.server) > 0 ==> exists e <- n.k.events :: IsWakeNow(e, n.k)
  }

  lemma {:induction false} WatchedKept(n: Net, r: Net)
    requires QueueWatched(n) && n.k.clock == r.k.clock && n.k.events <= r.k.events
    requires HasCapacity(r.server) && Depth(r.server) > 0 ==> HasCapacity(n.server) && Depth(n.server) > 0
    ensures QueueWatched(r)
  {
    if HasCapacity(r.server) && Depth(r.server) > 0 {
      var e :| e in n.k.events && IsWakeNow(e, n.k);
      assert e in r.k.events && IsWakeNow(e, r.k);
    }
  }

  lemma {:induction false} CompletionWatched(n: Net, attempt: nat, request: nat, client: Uuid)
    ensures var (s, k) := Complete(n.server, n.k, n.serverKey, attempt, request, client);
            QueueWatched(n.(server := s, k := k))
  {
    var (s, k) := Complete(n.server, n.k, n.serverKey, attempt, request, client);
    if HasCapacity(s) && Depth(s) > 0 {
      var e := Kernel.ComponentEvent(k.nextEvent, n.k.clock, n.serverKey, ToServer(ProcessQueuedRequests));
      assert e in k.events && IsWakeNow(e, k);
    }
  }

  lemma {:induction false} PopWatched(n: Net, l: Label)
    requires Wired(n) && Running(n) && QueueWatched(n)
    ensures NextEvent(n, l).payload == ToServer(ProcessQueuedRequests) || QueueWatched(Advanced(n, l))
  {
    PopWired(n, l);
    AllLive(n);
    if HasCapacity(n.server) && Depth(n.server) > 0 && NextEvent(n, l).payload != ToServer(ProcessQueuedRequests) {
      var e :| e in n.k.events && IsWakeNow(e, n.k);
      assert e in Advanced(n, l).k.events && IsWakeNow(e, Advanced(n, l).k);
    }
  }

  lemma {:induction false} StepWatched(n: Net, l: Label)
    requires Wired(n) && QueueWatched(n)
    ensures QueueWatched(Step(n, l))
  {
    if Running(n) {
      StepWired(n, l);
      PopWired(n, l);
      PopWatched(n, l);
      var p, e := Advanced(n, l), NextEvent(n, l);
      match e.payload {
        case ToClient(_) => WatchedKept(p, Step(n, l));
        case ToServer(s) =>
          match s
          case ProcessRequest(_, _) => WatchedKept(p, Step(n, l));
          case RequestCompleted(attempt, request, client) => CompletionWatched(p, attempt, request, client);
          case ProcessQueuedRequests => ProcessQueuedMoves(n.server, p.k, n.serverKey, l.service);
      }
    } else {
      DryStep(n, l);
    }
  }

  // ----- the invariant -----

  ghost predicate SystemInv(n: Net) {
    && Wired(n)
    && (forall r :: RequestOk(n.client, n.k, None, r))
    && Accounted(n.client)
    && Balanced(n.server, n.k, None, n.client.attemptsSent)
    && QueueWatched(n)
  }

  lemma {:induction false} BalanceMoves(s: Server, k: Queued, p: Queued, m: Msg, attemptsSent: nat)
    requires Balanced(s, k, None, attemptsSent)
    requires Weighed(k, IsRequest()) == IsRequest()(m) + Weighed(p, IsRequest())
    requires Weighed(k, IsCompletion()) == IsCompletion()(m) + Weighed(p, IsCompletion())
    ensures Balanced(s, p, Some(m), attemptsSent)
  {}

  lemma {:induction false} BalancedPopped(n: Net, l: Label)
    requires Wired(n) && Running(n) && Balanced(n.server, n.k, None, n.client.attemptsSent)
    ensures Balanced(n.server, Advanced(n, l).k, Some(NextEvent(n, l).payload), n.client.attemptsSent)
  {
    PopTakes(n, l, IsRequest());
    PopTakes(n, l, IsCompletion());
    BalanceMoves(n.server, n.k, Advanced(n, l).k, NextEvent(n, l).payload, n.client.attemptsSent);
  }

  lemma {:induction false} StepBalanced(n: Net, l: Label)
    requires Wired(n) && Balanced(n.server, n.k, None, n.client.attemptsSent)
    ensures Balanced(Step(n, l).server, Step(n, l).k, None, Step(n, l).client.attemptsSent)
  {
    if Running(n) {
      StepWired(n, l);
      PopWired(n, l);
      BalancedPopped(n, l);
      var p, e := Advanced(n, l), NextEvent(n, l);
      match e.payload {
        case ToClient(c) => ClientBalanced(n.server, n.client, p.k, n.clientKey, c, l.delay);
        case ToServer(s) => ServerBalanced(n.server, p.k, n.serverKey, s, l.service, n.client.attemptsSent);
      }
    } else {
      DryStep(n, l);
    }
  }

  lemma {:induction false} StepAccounted(n: Net, l: Label)
    requires Wired(n) && Accounted(n.client) && forall r :: RequestOk(n.client, n.k, None, r)
    ensures Accounted(Step(n, l).client)
  {
    if Running(n) {
      StepWired(n, l);
      PopWired(n, l);
      var p, e := Advanced(n, l), NextEvent(n, l);
      match e.payload {
        case ToClient(c) =>
          RequestPopped(n, l, if c.RetryRequest? then c.request else n.client.nextRequestId);
          RequestAllows(n.client, p.k, c);
          ClientAccounted(n.client, p.k, n.clientKey, c, l.delay);
        case ToServer(_) =>
      }
    } else {
      DryStep(n, l);
    }
  }

  /**
   * Every step keeps the invariant, whatever tie-breaks, retry delays and service times: late
   * responses, stale timeouts and duplicate retries included.
   */
  lemma {:induction false} StepSystemInv(n: Net, l: Label)
    requires SystemInv(n)
    ensures SystemInv(Step(n, l))
  {
    StepWired(n, l);
    forall r ensures RequestOk(Step(n, l).client, Step(n, l).k, None, r) {
      StepRequestOk(n, l, r);
    }
    StepAccounted(n, l);
    StepBalanced(n, l);
    StepWatched(n, l);
  }

  lemma {:induction false} RunSystemInv(n: Net, ls: seq<Label>)
    requires SystemInv(n)
    ensures SystemInv(Run(n, ls))
    decreases |ls|
  {
    if ls != [] {
      StepSystemInv(n, ls[0]);
      RunSystemInv(Step(n, ls[0]), ls[1..]);
    }
  }
}
