/** The client/server system as objects: its steps are those of the state machine, for any tie-break policy. */
module RetrySimulation {
  import opened SimTime
  import opened Ids
  import opened KernelInvariants
  import opened Scheduling
  import opened ClientServer
  import RetrySystem

  /** A scheduler, its tie-break policy, and a client and a server registered under their keys. */
  class Simulation<S> {
    const scheduler: Scheduler<Msg>
    const frontierPolicy: FrontierPolicy<S>
    const client: SimpleClient
    const server: SimpleServer
    const clientKey: Uuid
    const serverKey: Uuid

    constructor (
        scheduler: Scheduler<Msg>, policy: FrontierPolicy<S>, client: SimpleClient, clientKey: Uuid,
        server: SimpleServer, serverKey: Uuid)
      ensures this.scheduler == scheduler && frontierPolicy == policy
      ensures this.client == client && this.clientKey == clientKey
      ensures this.server == server && this.serverKey == serverKey
    {
      this.scheduler, frontierPolicy := scheduler, policy;
      this.client, this.clientKey := client, clientKey;
      this.server, this.serverKey := server, serverKey;
    }

    ghost function Here(): RetrySystem.Net
      reads this, scheduler, client, server
    {
      RetrySystem.Net(scheduler.Now(), client.Now(), server.Now(), clientKey, serverKey)
    }

    /** Hands an entry to the component it is addressed to; any other entry is dropped. */
    method ProcessEventEntry(e: RetrySystem.Event, delay: Time, service: nat -> Time)
      modifies scheduler, client, server
      ensures forall pick :: Here() == RetrySystem.Handle(old(Here()), e, RetrySystem.Label(pick, delay, service))
    {
      if e.ComponentEvent? && e.component == clientKey && e.payload.ToClient? {
        client.ProcessEvent(clientKey, e.payload.c, delay, scheduler);
      } else if e.ComponentEvent? && e.component == serverKey && e.payload.ToServer? {
        server.ProcessEvent(serverKey, e.payload.s, service, scheduler);
      }
    }

    /** Processes an entry, then drains the deferred wakes. */
    method ProcessAndDrain(e: RetrySystem.Event, delay: Time, service: nat -> Time)
      modifies scheduler, client, server
      ensures forall pick ::
                var r := RetrySystem.Handle(old(Here()), e, RetrySystem.Label(pick, delay, service));
                Here() == r.(k := Kernel.Drain(r.k))
    {
      ProcessEventEntry(e, delay, service);
      scheduler.DrainDeferredWakes();
    }

    /** Pop, process, drain: one transition of the system. */
    method Step(delay: Time, service: nat -> Time) returns (more: bool, ghost pick: nat)
      requires Inv(scheduler.Now())
      modifies scheduler, frontierPolicy, client, server
      ensures more <==> RetrySystem.Running(old(Here()))
      ensures Here() == RetrySystem.Step(old(Here()), RetrySystem.Label(pick, delay, service))
      ensures more ==>
              Consulted(old(scheduler.Now()), frontierPolicy.answer, old(frontierPolicy.state), frontierPolicy.state,
                pick)
    {
      var event;
      event, pick := scheduler.PopWithPolicy(frontierPolicy);
      if event.None? {
        return false, pick;
      }
      ProcessAndDrain(event.value, delay, service);
      more := true;
    }
  }
}
