/** Request queues: bounded or not, in arrival order or by priority. */
module Queues {
  import opened SimTime
  import opened Options
  import opened Vectors
  import opened Ids

  datatype Attempt = Attempt(id: nat, request: nat, number: nat, startedAt: Time)

  datatype Item = Item(attempt: Attempt, enqueuedAt: Time, priority: nat, client: Option<Uuid>)

  /** The waiting items in order of arrival, and how many ever came and went. */
  datatype Queue = Queue(items: seq<Item>, capacity: Option<nat>, byPriority: bool, enqueued: nat, dequeued: nat)

  predicate IsFull(q: Queue) {
    q.capacity.Some? && |q.items| >= q.capacity.value
  }

  /** The first index of the least priority. */
  function FirstLeast(items: seq<Item>): (i: nat)
    requires items != []
    ensures i < |items|
    ensures forall j :: 0 <= j < |items| ==> items[i].priority <= items[j].priority
    ensures forall j :: 0 <= j < i ==> items[i].priority < items[j].priority
  {
    if |items| == 1 then 0
    else
      var k := 1 + FirstLeast(items[1..]);
      assert items[k] == items[1..][k - 1];
      if items[0].priority <= items[k].priority then 0 else k
  }

  /** Which item leaves next. */
  function Next(q: Queue): (i: nat)
    requires q.items != []
    ensures i < |q.items|
  {
    if q.byPriority then FirstLeast(q.items) else 0
  }

  /** None when the queue is full. */
  function Enqueue(q: Queue, item: Item): Option<Queue> {
    if IsFull(q) then None else Some(q.(items := q.items + [item], enqueued := q.enqueued + 1))
  }

  function Dequeue(q: Queue): (Queue, Option<Item>) {
    if q.items == [] then (q, None)
    else
      var i := Next(q);
      (q.(items := q.items[..i] + q.items[i + 1..], dequeued := q.dequeued + 1), Some(q.items[i]))
  }

  /** Items neither appear nor vanish, and a bounded queue never exceeds its capacity. */
  predicate Balanced(q: Queue) {
    q.enqueued == q.dequeued + |q.items| && (q.capacity.Some? ==> |q.items| <= q.capacity.value)
  }

  lemma {:induction false} EnqueueKeepsItems(q: Queue, item: Item)
    requires Balanced(q) && Enqueue(q, item).Some?
    ensures Balanced(Enqueue(q, item).value)
    ensures multiset(Enqueue(q, item).value.items) == multiset(q.items) + multiset{item}
  {}

  lemma {:induction false} DequeueBalanced(q: Queue)
    requires Balanced(q)
    ensures Balanced(Dequeue(q).0) && (Dequeue(q).1.None? <==> q.items == [])
  {}

  lemma {:induction false} DequeueKeepsItems(q: Queue)
    requires Balanced(q)
    ensures Balanced(Dequeue(q).0) && (Dequeue(q).1.None? <==> q.items == [])
    ensures q.items != [] ==> multiset(q.items) == multiset(Dequeue(q).0.items) + multiset{Dequeue(q).1.value}
  {
    DequeueBalanced(q);
    if q.items != [] {
      var i := Next(q);
      RemovedMultiset(q.items, i);
      assert Dequeue(q).0.items == q.items[..i] + q.items[i + 1..] && Dequeue(q).1.value == q.items[i];
    }
  }

  /** With equal priorities throughout, the priority queue is the FIFO queue. */
  lemma {:induction false} EqualPrioritiesAreFifo(q: Queue)
    requires q.items != [] && forall i :: 0 <= i < |q.items| ==> q.items[i].priority == q.items[0].priority
    ensures Dequeue(q).1 == Some(q.items[0]) && Dequeue(q).0.items == q.items[1..]
  {
    assert q.items[..0] + q.items[1..] == q.items[1..];
  }

  // ----- arrivals and departures -----

  datatype Use = Arrive(item: Item) | Leave

  /** A sequence of arrivals and departures: the queue after it, who was let in, and who left. */
  function UseAll(q: Queue, us: seq<Use>): (Queue, seq<Item>, seq<Item>)
    decreases |us|
  {
    if us == [] then (q, [], [])
    else
      match us[0]
      case Arrive(item) =>
        var r := Enqueue(q, item);
        var (final, admitted, left) := UseAll(if r.Some? then r.value else q, us[1..]);
        (final, (if r.Some? then [item] else []) + admitted, left)
      case Leave =>
        var (r, item) := Dequeue(q);
        var (final, admitted, left) := UseAll(r, us[1..]);
        (final, admitted, (if item.Some? then [item.value] else []) + left)
  }

  /**
   * First come, first served: whatever arrives and leaves in whatever order, those who left and
   * those still waiting are, in order, those who waited at first and those who were let in.
   */
  lemma {:induction false} FifoServesInOrder(q: Queue, us: seq<Use>)
    requires !q.byPriority
    ensures var (final, admitted, left) := UseAll(q, us); q.items + admitted == left + final.items
    decreases |us|, 0
  {
    if us != [] {
      match us[0] {
        case Arrive(item) => ArrivalsInOrder(q, item, us[1..]);
        case Leave => DeparturesInOrder(q, us[1..]);
      }
    }
  }

  lemma {:induction false} ArrivalsInOrder(q: Queue, item: Item, us: seq<Use>)
    requires !q.byPriority
    ensures var (final, admitted, left) := UseAll(q, [Arrive(item)] + us); q.items + admitted == left + final.items
    decreases |us|, 1
  {
    var r := Enqueue(q, item);
    assert ([Arrive(item)] + us)[1..] == us;
    if r.Some? {
      var admitted := UseAll(r.value, us).1;
      FifoServesInOrder(r.value, us);
      assert q.items + ([item] + admitted) == (q.items + [item]) + admitted;
    } else {
      FifoServesInOrder(q, us);
      assert [] + UseAll(q, us).1 == UseAll(q, us).1;
    }
  }

  lemma {:induction false} DeparturesInOrder(q: Queue, us: seq<Use>)
    requires !q.byPriority
    ensures var (final, admitted, left) := UseAll(q, [Leave] + us); q.items + admitted == left + final.items
    decreases |us|, 1
  {
    var (r, item) := Dequeue(q);
    var (final, admitted, left) := UseAll(r, us);
    assert ([Leave] + us)[1..] == us;
    FifoServesInOrder(r, us);
    if q.items != [] {
      assert r.items == q.items[1..] && q.items == [q.items[0]] + r.items;
      assert ([q.items[0]] + left) + final.items == [q.items[0]] + (left + final.items);
    } else {
      assert [] + left == left;
    }
  }

  class FifoQueue {
    var items: seq<Item>
    const capacity: Option<nat>
    var totalEnqueued: nat
    var totalDequeued: nat

    ghost function Now(): Queue
      reads this
    {
      Queue(items, capacity, false, totalEnqueued, totalDequeued)
    }

    constructor (capacity: Option<nat>)
      ensures Now() == Queue([], capacity, false, 0, 0)
    {
      items, this.capacity, totalEnqueued, totalDequeued := [], capacity, 0, 0;
    }

    /** False when the queue is full. */
    method Put(item: Item) returns (ok: bool)
      modifies this
      ensures ok <==> Enqueue(old(Now()), item).Some?
      ensures Now() == if ok then Enqueue(old(Now()), item).value else old(Now())
      ensures ok <==> capacity.None? || |old(items)| < capacity.value
      ensures ok ==> items == old(items) + [item] && totalEnqueued == old(totalEnqueued) + 1
    {
      if capacity.Some? && |items| >= capacity.value {
        return false;
      }
      items := items + [item];
      totalEnqueued := totalEnqueued + 1;
      ok := true;
    }

    method Get() returns (item: Option<Item>)
      modifies this
      ensures (Now(), item) == Dequeue(old(Now()))
      ensures item.None? <==> old(items) == []
      ensures item.Some? ==> old(items) == [item.value] + items && totalDequeued == old(totalDequeued) + 1
    {
      if |items| == 0 {
        return None;
      }
      assert items[..0] + items[1..] == items[1..];
      item := Some(items[0]);
      items := items[1..];
      totalDequeued := totalDequeued + 1;
    }
  }

  datatype Prioritized = Prioritized(item: Item, sequence: nat)

  /** The heap's order: the smaller priority number leaves first, then the smaller sequence number. */
  predicate Ahead(a: Prioritized, b: Prioritized) {
    a.item.priority < b.item.priority || (a.item.priority == b.item.priority && a.sequence < b.sequence)
  }

  /** The heap's top is the first of the least priority, because sequence numbers record arrival. */
  lemma {:induction false} TopIsFirstLeast(heap: seq<Prioritized>, top: nat, items: seq<Item>)
    requires top < |heap| == |items| && forall i :: 0 <= i < |heap| ==> items[i] == heap[i].item
    requires forall i, j :: 0 <= i < j < |heap| ==> heap[i].sequence < heap[j].sequence
    requires forall j :: 0 <= j < |heap| && j != top ==> Ahead(heap[top], heap[j])
    ensures top == FirstLeast(items)
  {}

  function Items(heap: seq<Prioritized>): (r: seq<Item>)
    ensures |r| == |heap| && forall i :: 0 <= i < |r| ==> r[i] == heap[i].item
  {
    if heap == [] then [] else [heap[0].item] + Items(heap[1..])
  }

  ghost predicate InSequence(heap: seq<Prioritized>, next: nat) {
    && (forall i :: 0 <= i < |heap| ==> heap[i].sequence < next)
    && (forall i, j :: 0 <= i < j < |heap| ==> heap[i].sequence < heap[j].sequence)
  }

  /** Entry i, which was ahead of all others, has left with its item; the others stay in order. */
  ghost predicate LeftFrom(was: seq<Prioritized>, i: int, item: Item, now: seq<Prioritized>) {
    && 0 <= i < |was| && item == was[i].item && now == was[..i] + was[i + 1..]
    && forall j :: 0 <= j < |was| && j != i ==> Ahead(was[i], was[j])
  }

  lemma {:induction false} AddedLast(heap: seq<Prioritized>, p: Prioritized, next: nat)
    requires InSequence(heap, next) && p.sequence == next
    ensures Items(heap + [p]) == Items(heap) + [p.item] && InSequence(heap + [p], next + 1)
  {}

  lemma {:induction false} RemovedItems(heap: seq<Prioritized>, k: nat)
    requires k < |heap|
    ensures Items(heap[..k] + heap[k + 1..]) == Items(heap)[..k] + Items(heap)[k + 1..]
  {}

  lemma {:induction false} RemovedInOrder(heap: seq<Prioritized>, k: nat, next: nat)
    requires k < |heap| && InSequence(heap, next)
    ensures InSequence(heap[..k] + heap[k + 1..], next)
  {
    var r := heap[..k] + heap[k + 1..];
    assert forall i :: 0 <= i < |r| ==> r[i] == heap[if i < k then i else i + 1];
  }

  /** Taking out the entry ahead of all others is the queue's dequeue. */
  lemma {:induction false} LeavingFirst(heap: seq<Prioritized>, top: nat, rest: seq<Prioritized>, q: Queue, next: nat)
    requires InSequence(heap, next) && q.items == Items(heap) && q.byPriority
    requires top < |heap| && LeftFrom(heap, top, heap[top].item, rest)
    ensures InSequence(rest, next)
    ensures Dequeue(q) == (q.(items := Items(rest), dequeued := q.dequeued + 1), Some(heap[top].item))
  {
    TopIsFirstLeast(heap, top, Items(heap));
    RemovedInOrder(heap, top, next);
    RemovedItems(heap, top);
  }

  class PriorityQueue {
    /** The heap; its contents are listed in order of sequence numbers. */
    var heap: seq<Prioritized>
    const capacity: Option<nat>
    var nextSequence: nat
    var totalEnqueued: nat
    var totalDequeued: nat

    ghost predicate Valid()
      reads this
    {
      InSequence(heap, nextSequence)
    }

    ghost function Now(): Queue
      reads this
    {
      Queue(Items(heap), capacity, true, totalEnqueued, totalDequeued)
    }

    constructor (capacity: Option<nat>)
      ensures Valid() && Now() == Queue([], capacity, true, 0, 0)
    {
      heap, this.capacity, nextSequence, totalEnqueued, totalDequeued := [], capacity, 0, 0, 0;
    }

    method Put(item: Item) returns (ok: bool)
      requires Valid()
      modifies this
      ensures Valid()
      ensures ok <==> Enqueue(old(Now()), item).Some?
      ensures Now() == if ok then Enqueue(old(Now()), item).value else old(Now())
      ensures ok <==> capacity.None? || |old(heap)| < capacity.value
      ensures ok ==> heap == old(heap) + [Prioritized(item, old(nextSequence))]
      ensures ok ==> totalEnqueued == old(totalEnqueued) + 1
    {
      if capacity.Some? && |heap| >= capacity.value {
        return false;
      }
      AddedLast(heap, Prioritized(item, nextSequence), nextSequence);
      heap := heap + [Prioritized(item, nextSequence)];
      nextSequence := nextSequence + 1;
      totalEnqueued := totalEnqueued + 1;
      ok := true;
    }

    /** The item of the entry ahead of all others, and what stays when it leaves. */
    method Top() returns (item: Item, rest: seq<Prioritized>)
      requires Valid() && heap != []
      ensures exists i :: LeftFrom(heap, i, item, rest)
      ensures InSequence(rest, nextSequence)
      ensures Dequeue(Now()) == (Queue(Items(rest), capacity, true, totalEnqueued, totalDequeued + 1), Some(item))
    {
      var top := 0;
      for i := 1 to |heap|
        invariant top < i && forall j :: 0 <= j < i && j != top ==> Ahead(heap[top], heap[j])
      {
        if Ahead(heap[i], heap[top]) {
          top := i;
        }
      }
      item, rest := heap[top].item, heap[..top] + heap[top + 1..];
      assert LeftFrom(heap, top, item, rest);
      LeavingFirst(heap, top, rest, Now(), nextSequence);
    }

    method Get() returns (item: Option<Item>)
      requires Valid()
      modifies this
      ensures Valid() && (Now(), item) == Dequeue(old(Now()))
      ensures item.None? <==> old(heap) == []
      ensures item.Some? ==> exists i :: LeftFrom(old(heap), i, item.value, heap)
    {
      if |heap| == 0 {
        return None;
      }
      var first, rest := Top();
      item, heap, totalDequeued := Some(first), rest, totalDequeued + 1;
    }
  }
}
