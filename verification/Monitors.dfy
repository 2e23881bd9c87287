/** Windowed monitoring: observations are counted in fixed windows, and queue lengths integrated over time. */
module Monitors {
  import opened SimTime

  type QueueId = nat

  /** One queue within the current window: its length since `lastTime`, and the integral up to then. */
  datatype QueueState = QueueState(len: nat, max: nat, windowStart: Time, lastTime: Time, integral: nat)

  datatype Counts = Counts(inTime: nat, late: nat, dropped: nat, timeouts: nat, retries: nat)

  /** A queue over one closed window: the integral of its length, and its greatest length. */
  datatype QueueWindow = QueueWindow(integral: nat, max: nat)

  datatype Summary = Summary(start: Time, end: Time, counts: Counts, queues: map<QueueId, QueueWindow>, queueMax: nat)

  datatype Monitor = Monitor(
    window: Time,
    windowStart: Time,
    windowEnd: Time,
    queues: map<QueueId, QueueState>,
    counts: Counts,
    timeline: seq<Summary>)

  datatype Observation =
    | QueueLen(queue: QueueId, len: nat)
    | Drop
    | Timeout
    | Retry
    | Complete(inTime: bool)

  const NO_COUNTS: Counts := Counts(0, 0, 0, 0, 0)

  function New(window: Time, start: Time): Monitor {
    Monitor(window, start, Plus(start, window), map[], NO_COUNTS, [])
  }

  function NewQueue(start: Time): QueueState { QueueState(0, 0, start, start, 0) }

  function ObserveLen(q: QueueState, now: Time, len: nat): QueueState {
    q.(integral := q.integral + q.len * Since(now, q.lastTime),
       lastTime := now,
       len := len,
       max := if q.max < len then len else q.max)
  }

  /** Closes the integral at the end of the window. */
  function Finalize(q: QueueState, end: Time): QueueState {
    q.(integral := q.integral + q.len * Since(end, q.lastTime), lastTime := end)
  }

  function Reset(q: QueueState, now: Time): QueueState {
    QueueState(q.len, q.len, now, now, 0)
  }

  /** What a summary keeps of the queues whose integrals have been closed. */
  function Summarise(closed: map<QueueId, QueueState>): map<QueueId, QueueWindow> {
    map q | q in closed :: QueueWindow(closed[q].integral, closed[q].max)
  }

  function FinalizeAll(qs: map<QueueId, QueueState>, end: Time): map<QueueId, QueueState> {
    map q | q in qs :: Finalize(qs[q], end)
  }

  /** The greatest `max` of all queues, 0 without queues. */
  ghost predicate IsGreatest(qs: map<QueueId, QueueState>, n: nat) {
    (forall q <- qs :: qs[q].max <= n) && (n == 0 || exists q <- qs :: qs[q].max == n)
  }

  lemma {:induction false} GreatestExists(qs: map<QueueId, QueueState>)
    ensures exists n: nat :: IsGreatest(qs, n)
    decreases |qs|
  {
    if qs == map[] {
      assert IsGreatest(qs, 0);
    } else {
      var q :| q in qs;
      var rest := qs - {q};
      GreatestExists(rest);
      var n: nat :| IsGreatest(rest, n);
      forall x <- qs ensures qs[x].max <= (if n <= qs[q].max then qs[q].max else n) {
        if x != q {
          assert x in rest && rest[x] == qs[x];
        }
      }
      if n <= qs[q].max {
        assert IsGreatest(qs, qs[q].max);
      } else {
        var x :| x in rest && rest[x].max == n;
        assert x in qs;
        assert IsGreatest(qs, n);
      }
    }
  }

  ghost function Greatest(qs: map<QueueId, QueueState>): (n: nat)
    ensures IsGreatest(qs, n)
  {
    GreatestExists(qs);
    var n: nat :| IsGreatest(qs, n);
    n
  }

  /** Closes the current window and opens the next. */
  ghost function FlushWindow(m: Monitor): Monitor {
    var end := m.windowEnd;
    var closed := FinalizeAll(m.queues, end);
    m.(windowStart := end,
       windowEnd := Plus(end, m.window),
       queues := map q | q in closed :: Reset(closed[q], end),
       counts := NO_COUNTS,
       timeline := m.timeline + [Summary(m.windowStart, end, m.counts, Summarise(closed), Greatest(closed))])
  }

  /** When the flushing loop ends: there is no window to close, or closing windows gets past `now`. */
  predicate FlushEnds(m: Monitor, now: Time) {
    now < m.windowEnd || (m.window > 0 && now < MAX_NANOS)
  }

  ghost function CloseWindows(m: Monitor, now: Time): (r: Monitor)
    requires FlushEnds(m, now)
    ensures now < r.windowEnd && r.window == m.window
    decreases if now < m.windowEnd then 0 else 1 + now - m.windowEnd
  {
    if now < m.windowEnd then m else CloseWindows(FlushWindow(m), now)
  }

  ghost function FlushUpTo(m: Monitor, now: Time): (r: Monitor)
    requires FlushEnds(m, now)
    ensures now < r.windowEnd && r.window == m.window
  {
    var r := CloseWindows(m, now);
    r.(queues := map q | q in r.queues :: ObserveLen(r.queues[q], now, r.queues[q].len))
  }

  function Add(c: Counts, o: Observation): Counts {
    match o
    case QueueLen(_, _) => c
    case Drop => c.(dropped := c.dropped + 1)
    case Timeout => c.(timeouts := c.timeouts + 1)
    case Retry => c.(retries := c.retries + 1)
    case Complete(inTime) => if inTime then c.(inTime := c.inTime + 1) else c.(late := c.late + 1)
  }

  ghost function Observe(m: Monitor, now: Time, o: Observation): (r: Monitor)
    requires FlushEnds(m, now)
    ensures now < r.windowEnd && r.window == m.window
  {
    var r := FlushUpTo(m, now);
    if o.QueueLen? then
      var q := if o.queue in r.queues then r.queues[o.queue] else NewQueue(r.windowStart);
      r.(queues := r.queues[o.queue := ObserveLen(q, now, o.len)])
    else r.(counts := Add(r.counts, o))
  }

  // ----- when the flushing loop ends -----

  /** After n turns of the flushing loop's body. */
  ghost function Closed(m: Monitor, n: nat): Monitor
    decreases n
  {
    if n == 0 then m else Closed(FlushWindow(m), n - 1)
  }

  /** At the end of time, and with a zero window, the loop condition stays true for ever. */
  lemma {:induction false} FlushingNeverEnds(m: Monitor, now: Time, n: nat)
    requires !FlushEnds(m, now)
    ensures now >= Closed(m, n).windowEnd
    decreases n
  {
    if n > 0 {
      FlushingNeverEnds(FlushWindow(m), now, n - 1);
    }
  }

  lemma {:induction false} FlushingEnds(m: Monitor, now: Time) returns (n: nat)
    requires FlushEnds(m, now)
    ensures CloseWindows(m, now) == Closed(m, n) && now < Closed(m, n).windowEnd
    decreases if now < m.windowEnd then 0 else 1 + now - m.windowEnd
  {
    n := 0;
    if now >= m.windowEnd {
      var k := FlushingEnds(FlushWindow(m), now);
      n := k + 1;
    }
  }

  /** So `FlushEnds` says exactly when the loop ends. */
  lemma {:induction false} FlushEndsIsExact(m: Monitor, now: Time)
    ensures FlushEnds(m, now) <==> exists n: nat :: now < Closed(m, n).windowEnd
  {
    if FlushEnds(m, now) {
      var n := FlushingEnds(m, now);
    } else {
      forall n: nat ensures now >= Closed(m, n).windowEnd {
        FlushingNeverEnds(m, now, n);
      }
    }
  }

  /** The loop hangs at once with a window of length zero, and at the end of time with any window. */
  lemma {:induction false} FlushHangs(window: Time, start: Time, n: nat)
    ensures start >= Closed(New(0, start), n).windowEnd
    ensures MAX_NANOS >= Closed(New(window, start), n).windowEnd
    ensures !FlushEnds(New(0, start), start) && !FlushEnds(New(window, start), MAX_NANOS)
  {
    FlushingNeverEnds(New(0, start), start, n);
    FlushingNeverEnds(New(window, start), MAX_NANOS, n);
  }

  // ----- the object -----

  class LiveMonitor {
    const window: Time
    var windowStart: Time
    var windowEnd: Time
    var queues: map<QueueId, QueueState>
    var counts: Counts
    var timeline: seq<Summary>

    ghost function Now(): Monitor
      reads this
    {
      Monitor(window, windowStart, windowEnd, queues, counts, timeline)
    }

    constructor (window: Time, start: Time)
      ensures Now() == New(window, start)
      ensures windowStart == start && windowEnd == Saturate(start + window) && this.window == window
      ensures queues == map[] && counts == NO_COUNTS && timeline == []
    {
      this.window, windowStart, windowEnd := window, start, Plus(start, window);
      queues, counts, timeline := map[], NO_COUNTS, [];
    }

    /** Closes every queue's integral; also yields the greatest length seen in the window. */
    method FinalizeQueues(end: Time) returns (totalMax: nat)
      modifies this`queues
      ensures queues == FinalizeAll(old(queues), end) && totalMax == Greatest(queues)
      ensures forall q <- queues :: queues[q].max <= totalMax
      ensures totalMax == 0 || exists q <- queues :: queues[q].max == totalMax
    {
      var todo := queues.Keys;
      totalMax := 0;
      while todo != {}
        invariant todo <= queues.Keys == old(queues).Keys
        invariant forall q <- queues :: queues[q] == if q in todo then old(queues)[q] else Finalize(old(queues)[q], end)
        invariant forall q <- queues :: q !in todo ==> queues[q].max <= totalMax
        invariant totalMax == 0 || exists q <- queues :: q !in todo && queues[q].max == totalMax
        decreases |todo|
      {
        var q :| q in todo;
        queues := queues[q := Finalize(queues[q], end)];
        totalMax := if totalMax < queues[q].max then queues[q].max else totalMax;
        todo := todo - {q};
      }
    }

    method CloseWindow()
      modifies this
      ensures Now() == FlushWindow(old(Now()))
      ensures windowStart == old(windowEnd) && windowEnd == Saturate(windowStart + window) && counts == NO_COUNTS
      ensures |timeline| == |old(timeline)| + 1 && timeline[..|old(timeline)|] == old(timeline)
      ensures var last := timeline[|old(timeline)|];
              last.start == old(windowStart) && last.end == old(windowEnd) && last.counts == old(counts)
    {
      var end := windowEnd;
      var totalMax := FinalizeQueues(end);
      timeline := timeline + [Summary(windowStart, end, counts, Summarise(queues), totalMax)];
      windowStart := end;
      windowEnd := Plus(end, window);
      counts := NO_COUNTS;
      queues := map q | q in queues :: Reset(queues[q], end);
    }

    method Flush(now: Time)
      requires FlushEnds(Now(), now)
      modifies this
      ensures Now() == FlushUpTo(old(Now()), now)
    {
      while now >= windowEnd
        invariant FlushEnds(Now(), now) && CloseWindows(Now(), now) == CloseWindows(old(Now()), now)
        decreases if now < windowEnd then 0 else 1 + now - windowEnd
      {
        CloseWindow();
      }
      queues := map q | q in queues :: ObserveLen(queues[q], now, queues[q].len);
    }

    method Record(now: Time, o: Observation)
      requires FlushEnds(Now(), now)
      modifies this
      ensures Now() == Observe(old(Now()), now, o)
      ensures var flushed := FlushUpTo(old(Now()), now).counts;
              match o
              case QueueLen(_, _) => counts == flushed
              case Drop => counts == flushed.(dropped := flushed.dropped + 1)
              case Timeout => counts == flushed.(timeouts := flushed.timeouts + 1)
              case Retry => counts == flushed.(retries := flushed.retries + 1)
              case Complete(inTime) =>
                counts == if inTime then flushed.(inTime := flushed.inTime + 1) else flushed.(late := flushed.late + 1)
    {
      Flush(now);
      match o
      case QueueLen(queue, len) =>
        var q := if queue in queues then queues[queue] else NewQueue(windowStart);
        queues := queues[queue := ObserveLen(q, now, len)];
      case _ => counts := Add(counts, o);
    }
  }
}
