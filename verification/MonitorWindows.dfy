/** Windows tile time, observations fall into the right one, and queue integrals are exact. */
module MonitorWindows {
  import opened SimTime
  import opened Monitors

  datatype Timed = Timed(at: Time, o: Observation)

  /** Times never go back, and no window end saturates. */
  ghost predicate Ordered(start: Time, window: Time, os: seq<Timed>) {
    && window > 0
    && start + window <= MAX_NANOS
    && (forall i :: 0 <= i < |os| ==> start <= os[i].at && os[i].at + window <= MAX_NANOS)
    && (forall i, j :: 0 <= i < j < |os| ==> os[i].at <= os[j].at)
  }

  // ----- windows -----

  /** Window j covers [start + j * window, start + (j + 1) * window); the open one is the next. */
  ghost predicate Tiled(m: Monitor, start: Time) {
    && m.windowStart == start + m.window * |m.timeline|
    && m.windowEnd == m.windowStart + m.window
    && (forall j :: 0 <= j < |m.timeline| ==>
          m.timeline[j].start == start + m.window * j && m.timeline[j].end == m.timeline[j].start + m.window)
  }

  lemma {:induction false} FlushTiled(m: Monitor, start: Time)
    requires Tiled(m, start) && m.windowEnd + m.window <= MAX_NANOS
    ensures Tiled(FlushWindow(m), start)
  {
    assert m.window * (|m.timeline| + 1) == m.window * |m.timeline| + m.window;
  }

  lemma {:induction false} CloseTiled(m: Monitor, start: Time, now: Time)
    requires Tiled(m, start) && m.window > 0 && now + m.window <= MAX_NANOS
    ensures FlushEnds(m, now)
    ensures var r := CloseWindows(m, now);
      Tiled(r, start) && (m.windowStart <= now ==> r.windowStart <= now < r.windowEnd) && m.timeline <= r.timeline
    decreases if now < m.windowEnd then 0 else 1 + now - m.windowEnd
  {
    if now >= m.windowEnd {
      FlushTiled(m, start);
      CloseTiled(FlushWindow(m), start, now);
    }
  }

  /** The window an instant falls into. */
  function WindowOf(start: Time, window: Time, t: Time): nat
    requires window > 0 && start <= t
  {
    (t - start) / window
  }

  lemma {:induction false} OpenWindowIs(m: Monitor, start: Time, now: Time)
    requires Tiled(m, start) && m.window > 0 && m.windowStart <= now < m.windowEnd && start <= now
    ensures |m.timeline| == WindowOf(start, m.window, now)
  {
    var k, d := |m.timeline|, now - start;
    assert m.window * k <= d < m.window * k + m.window;
    QuotientIs(d, m.window, k);
  }

  lemma {:induction false} QuotientIs(d: nat, w: nat, k: nat)
    requires w > 0 && w * k <= d < w * k + w
    ensures d / w == k
  {
    var q := d / w;
    assert w * q <= d < w * q + w;
    if q < k {
      ProductStep(w, q, k);
    } else if k < q {
      ProductStep(w, k, q);
    }
  }

  lemma {:induction false} ProductStep(w: nat, a: nat, b: nat)
    requires a < b
    ensures w * a + w <= w * b
  {
    assert w * (a + 1) <= w * b;
  }

  // ----- a sequence of observations -----

  ghost function ObserveAll(m: Monitor, os: seq<Timed>): (r: Monitor)
    requires m.window > 0 && forall i :: 0 <= i < |os| ==> os[i].at < MAX_NANOS
    ensures r.window == m.window
    decreases |os|
  {
    if os == [] then m else
      var n := |os| - 1;
      Observe(ObserveAll(m, os[..n]), os[n].at, os[n].o)
  }

  ghost function Final(start: Time, window: Time, os: seq<Timed>): Monitor
    requires Ordered(start, window, os)
  {
    ObserveAll(New(window, start), os)
  }

  function LastTime(start: Time, os: seq<Timed>): Time {
    if os == [] then start else os[|os| - 1].at
  }

  lemma {:induction false} OrderedPrefix(start: Time, window: Time, os: seq<Timed>)
    requires Ordered(start, window, os) && os != []
    ensures var p := os[..|os| - 1]; Ordered(start, window, p) && LastTime(start, p) <= os[|os| - 1].at
    ensures var p := os[..|os| - 1];
            Final(start, window, os) == Observe(Final(start, window, p), os[|os| - 1].at, os[|os| - 1].o)
  {}

  /** Windows tile time without gaps, and the open window is always the one of the latest observation. */
  lemma {:induction false} WindowsTile(start: Time, window: Time, os: seq<Timed>)
    requires Ordered(start, window, os)
    ensures var m := Final(start, window, os); var t := LastTime(start, os);
      Tiled(m, start) && m.windowStart <= t < m.windowEnd && |m.timeline| == WindowOf(start, window, t)
    decreases |os|
  {
    if os == [] {
      OpenWindowIs(New(window, start), start, start);
    } else {
      OrderedPrefix(start, window, os);
      var p, t := os[..|os| - 1], os[|os| - 1].at;
      WindowsTile(start, window, p);
      CloseTiled(Final(start, window, p), start, t);
      OpenWindowIs(Final(start, window, os), start, t);
    }
  }

  // ----- counts -----

  /** What the monitor has counted in window j, closed or open. */
  ghost function CountsIn(m: Monitor, j: nat): Counts {
    if j < |m.timeline| then m.timeline[j].counts else if j == |m.timeline| then m.counts else NO_COUNTS
  }

  /** The observations equal to o whose time lies in window j. */
  function Seen(start: Time, window: Time, os: seq<Timed>, j: nat, o: Observation): set<nat>
    requires window > 0 && forall i :: 0 <= i < |os| ==> start <= os[i].at
  {
    set i: nat | i < |os| && IsSeen(start, window, os[i], j, o)
  }

  predicate IsSeen(start: Time, window: Time, x: Timed, j: nat, o: Observation)
    requires window > 0 && start <= x.at
  {
    WindowOf(start, window, x.at) == j && x.o == o
  }

  lemma {:induction false} CloseCounts(m: Monitor, now: Time, j: nat)
    requires FlushEnds(m, now)
    ensures CountsIn(CloseWindows(m, now), j) == CountsIn(m, j)
    decreases if now < m.windowEnd then 0 else 1 + now - m.windowEnd
  {
    if now >= m.windowEnd {
      CloseCounts(FlushWindow(m), now, j);
    }
  }

  lemma {:induction false} OneIndexMore(before: set<nat>, after: set<nat>, n: nat, hit: bool)
    requires n !in before && forall i: nat :: i in after <==> i in before || (hit && i == n)
    ensures |after| == |before| + if hit then 1 else 0
  {
    assert after == if hit then before + {n} else before;
  }

  lemma {:induction false} SeenNext(start: Time, window: Time, os: seq<Timed>, j: nat, o: Observation)
    requires window > 0 && (forall i :: 0 <= i < |os| ==> start <= os[i].at) && os != []
    ensures |Seen(start, window, os, j, o)| == |Seen(start, window, os[..|os| - 1], j, o)|
              + if IsSeen(start, window, os[|os| - 1], j, o) then 1 else 0
  {
    var n := |os| - 1;
    var before, after := Seen(start, window, os[..n], j, o), Seen(start, window, os, j, o);
    forall i: nat ensures i in after <==> i in before || (IsSeen(start, window, os[n], j, o) && i == n) {
      assert i < n ==> os[..n][i] == os[i];
    }
    OneIndexMore(before, after, n, IsSeen(start, window, os[n], j, o));
  }

  /** In each window each of the five counts is the number of observations of its kind. */
  ghost predicate CountsAre(c: Counts, start: Time, window: Time, os: seq<Timed>, j: nat)
    requires window > 0 && forall i :: 0 <= i < |os| ==> start <= os[i].at
  {
    && c.inTime == |Seen(start, window, os, j, Complete(true))|
    && c.late == |Seen(start, window, os, j, Complete(false))|
    && c.dropped == |Seen(start, window, os, j, Drop)|
    && c.timeouts == |Seen(start, window, os, j, Timeout)|
    && c.retries == |Seen(start, window, os, j, Retry)|
  }

  /**
   * Each observation is counted once, by its kind, in window floor((t - start) / window): nothing is
   * lost at a window's end.
   */
  lemma {:induction false} CountedInItsWindow(start: Time, window: Time, os: seq<Timed>, j: nat)
    requires Ordered(start, window, os)
    ensures CountsAre(CountsIn(Final(start, window, os), j), start, window, os, j)
    decreases |os|
  {
    if os != [] {
      OrderedPrefix(start, window, os);
      var p, t, o := os[..|os| - 1], os[|os| - 1].at, os[|os| - 1].o;
      CountedInItsWindow(start, window, p, j);
      WindowsTile(start, window, os);
      CloseCounts(Final(start, window, p), t, j);
      CountOneMore(CountsIn(Final(start, window, p), j), start, window, os, j);
      if WindowOf(start, window, t) == j {
        assert CountsIn(Final(start, window, os), j) == Add(CountsIn(Final(start, window, p), j), o);
      } else {
        assert CountsIn(Final(start, window, os), j) == CountsIn(Final(start, window, p), j);
      }
    }
  }

  lemma {:induction false} CountOneMore(c: Counts, start: Time, window: Time, os: seq<Timed>, j: nat)
    requires window > 0 && (forall i :: 0 <= i < |os| ==> start <= os[i].at) && os != []
    requires CountsAre(c, start, window, os[..|os| - 1], j)
    ensures var last := os[|os| - 1];
            CountsAre(if WindowOf(start, window, last.at) == j then Add(c, last.o) else c, start, window, os, j)
  {
    SeenNext(start, window, os, j, Complete(true));
    SeenNext(start, window, os, j, Complete(false));
    SeenNext(start, window, os, j, Drop);
    SeenNext(start, window, os, j, Timeout);
    SeenNext(start, window, os, j, Retry);
  }

  // ----- totals -----

  function SumOf(c: Counts): nat {
    c.inTime + c.late + c.dropped + c.timeouts + c.retries
  }

  function SumOfAll(ss: seq<Summary>): nat {
    if ss == [] then 0 else SumOfAll(ss[..|ss| - 1]) + SumOf(ss[|ss| - 1].counts)
  }

  /** Everything the monitor has counted, in the closed windows and in the open one. */
  function Counted(m: Monitor): nat {
    SumOfAll(m.timeline) + SumOf(m.counts)
  }

  /** The observations that are not queue lengths. */
  function Events(os: seq<Timed>): set<nat> {
    set i: nat | i < |os| && !os[i].o.QueueLen?
  }

  lemma {:induction false} CloseCounted(m: Monitor, now: Time)
    requires FlushEnds(m, now)
    ensures Counted(CloseWindows(m, now)) == Counted(m)
    decreases if now < m.windowEnd then 0 else 1 + now - m.windowEnd
  {
    if now >= m.windowEnd {
      assert FlushWindow(m).timeline[..|m.timeline|] == m.timeline;
      CloseCounted(FlushWindow(m), now);
    }
  }

  lemma {:induction false} EventsNext(os: seq<Timed>)
    requires os != []
    ensures |Events(os)| == |Events(os[..|os| - 1])| + if os[|os| - 1].o.QueueLen? then 0 else 1
  {
    var n := |os| - 1;
    OneIndexMore(Events(os[..n]), Events(os), n, !os[n].o.QueueLen?);
  }

  /** Over all windows together nothing is lost and nothing counted twice. */
  lemma {:induction false} CountsAreConserved(start: Time, window: Time, os: seq<Timed>)
    requires Ordered(start, window, os)
    ensures Counted(Final(start, window, os)) == |Events(os)|
    decreases |os|
  {
    if os != [] {
      OrderedPrefix(start, window, os);
      CountsAreConserved(start, window, os[..|os| - 1]);
      CloseCounted(Final(start, window, os[..|os| - 1]), os[|os| - 1].at);
      EventsNext(os);
    }
  }

  // ----- integrals -----

  function IntegralIn(s: Summary, q: QueueId): nat {
    if q in s.queues then s.queues[q].integral else 0
  }

  function ClosedIntegral(ss: seq<Summary>, q: QueueId): nat {
    if ss == [] then 0 else ClosedIntegral(ss[..|ss| - 1], q) + IntegralIn(ss[|ss| - 1], q)
  }

  function OpenIntegral(m: Monitor, q: QueueId): nat {
    if q in m.queues then m.queues[q].integral else 0
  }

  function LengthOf(m: Monitor, q: QueueId): nat {
    if q in m.queues then m.queues[q].len else 0
  }

  /** The queue's length after the observations. */
  function StepLength(os: seq<Timed>, q: QueueId): nat {
    if os == [] then 0
    else
      var last := os[|os| - 1].o;
      if last.QueueLen? && last.queue == q then last.len else StepLength(os[..|os| - 1], q)
  }

  /** The exact integral of the length, as a step function of time, up to the latest observation. */
  function StepArea(start: Time, os: seq<Timed>, q: QueueId): nat
    requires forall i, j :: 0 <= i < j < |os| ==> os[i].at <= os[j].at
    requires forall i :: 0 <= i < |os| ==> start <= os[i].at
  {
    if os == [] then 0
    else
      var p := os[..|os| - 1];
      StepArea(start, p, q) + StepLength(p, q) * (os[|os| - 1].at - LastTime(start, p))
  }

  /** The integral so far, were the current length to last until time t. */
  ghost function AreaUntil(m: Monitor, q: QueueId, t: Time): nat
    requires q in m.queues ==> m.queues[q].lastTime <= t
  {
    ClosedIntegral(m.timeline, q) + OpenIntegral(m, q)
      + (if q in m.queues then m.queues[q].len * (t - m.queues[q].lastTime) else 0)
  }

  lemma {:induction false} SplitProduct(len: nat, a: nat, b: nat, c: nat)
    requires a <= b <= c
    ensures len * (b - a) + len * (c - b) == len * (c - a)
  {}

  lemma {:induction false} FlushArea(m: Monitor, q: QueueId, t: Time)
    requires m.windowEnd <= t && (q in m.queues ==> m.queues[q].lastTime <= m.windowEnd)
    ensures var r := FlushWindow(m);
      && (q in r.queues <==> q in m.queues) && (q in r.queues ==> r.queues[q].lastTime == m.windowEnd)
      && AreaUntil(r, q, t) == AreaUntil(m, q, t) && LengthOf(r, q) == LengthOf(m, q)
  {
    var r := FlushWindow(m);
    assert r.timeline[..|m.timeline|] == m.timeline;
    if q in m.queues {
      SplitProduct(m.queues[q].len, m.queues[q].lastTime, m.windowEnd, t);
    }
  }

  lemma {:induction false} CloseArea(m: Monitor, q: QueueId, now: Time)
    requires FlushEnds(m, now) && m.windowEnd <= Plus(m.windowEnd, m.window)
    requires q in m.queues ==> m.queues[q].lastTime <= now && m.queues[q].lastTime <= m.windowEnd
    ensures var r := CloseWindows(m, now);
      && (q in r.queues <==> q in m.queues) && (q in r.queues ==> r.queues[q].lastTime <= now)
      && AreaUntil(r, q, now) == AreaUntil(m, q, now) && LengthOf(r, q) == LengthOf(m, q)
    decreases if now < m.windowEnd then 0 else 1 + now - m.windowEnd
  {
    if now >= m.windowEnd {
      FlushArea(m, q, now);
      CloseArea(FlushWindow(m), q, now);
    }
  }

  /** Once flushed to `now`, the integral is complete up to `now`. */
  lemma {:induction false} FlushedArea(m: Monitor, q: QueueId, now: Time)
    requires FlushEnds(m, now)
    requires q in m.queues ==> m.queues[q].lastTime <= now && m.queues[q].lastTime <= m.windowEnd
    ensures var r := FlushUpTo(m, now);
      && (q in r.queues <==> q in m.queues) && (q in r.queues ==> r.queues[q].lastTime == now)
      && ClosedIntegral(r.timeline, q) + OpenIntegral(r, q) == AreaUntil(m, q, now) && LengthOf(r, q) == LengthOf(m, q)
  {
    CloseArea(m, q, now);
  }

  /** What holds of a queue after an observation at time t. */
  ghost predicate Exact(m: Monitor, q: QueueId, t: Time, area: nat, len: nat) {
    && ClosedIntegral(m.timeline, q) + OpenIntegral(m, q) == area
    && LengthOf(m, q) == len
    && (q in m.queues ==> m.queues[q].lastTime == t)
    && (q !in m.queues ==> len == 0)
  }

  lemma {:induction false} ObserveExact(
      m: Monitor, q: QueueId, t: Time, now: Time, dt: nat, o: Observation, area: nat, len: nat)
    requires Exact(m, q, t, area, len) && now == t + dt && t < m.windowEnd && FlushEnds(m, now)
    ensures Exact(Observe(m, now, o), q, now, area + len * dt, if o.QueueLen? && o.queue == q then o.len else len)
  {
    FlushedArea(m, q, now);
  }

  /** One observation more, in terms of the step function. */
  lemma {:induction false} StepFunctionNext(start: Time, window: Time, os: seq<Timed>, q: QueueId, dt: nat)
    requires Ordered(start, window, os) && os != []
    requires os[|os| - 1].at == LastTime(start, os[..|os| - 1]) + dt
    ensures var p, o := os[..|os| - 1], os[|os| - 1].o;
            && StepArea(start, os, q) == StepArea(start, p, q) + StepLength(p, q) * dt
            && StepLength(os, q) == (if o.QueueLen? && o.queue == q then o.len else StepLength(p, q))
            && LastTime(start, os) == os[|os| - 1].at
  {}

  lemma {:induction false} ExactNext(
      before: Monitor, after: Monitor, start: Time, window: Time, os: seq<Timed>, q: QueueId, dt: nat)
    requires Ordered(start, window, os) && os != []
    requires os[|os| - 1].at == LastTime(start, os[..|os| - 1]) + dt
    requires var p := os[..|os| - 1];
             && Exact(before, q, LastTime(start, p), StepArea(start, p, q), StepLength(p, q))
             && LastTime(start, p) < before.windowEnd && FlushEnds(before, os[|os| - 1].at)
             && after == Observe(before, os[|os| - 1].at, os[|os| - 1].o)
    ensures Exact(after, q, LastTime(start, os), StepArea(start, os, q), StepLength(os, q))
  {
    var p, last := os[..|os| - 1], os[|os| - 1];
    StepFunctionNext(start, window, os, q, dt);
    ObserveExact(before, q, LastTime(start, p), last.at, dt, last.o, StepArea(start, p, q), StepLength(p, q));
  }

  /**
   * For every queue the integrals of the closed windows and of the open one add up to the exact
   * integral of its length as a step function of time.
   */
  lemma {:induction false} IntegralsAreExact(start: Time, window: Time, os: seq<Timed>, q: QueueId)
    requires Ordered(start, window, os)
    ensures var m := Final(start, window, os);
            Exact(m, q, LastTime(start, os), StepArea(start, os, q), StepLength(os, q))
    decreases |os|
  {
    if os != [] {
      OrderedPrefix(start, window, os);
      var p := os[..|os| - 1];
      IntegralsAreExact(start, window, p, q);
      WindowsTile(start, window, p);
      ExactNext(Final(start, window, p), Final(start, window, os), start, window, os, q,
        os[|os| - 1].at - LastTime(start, p));
    }
  }

  // ----- bounds -----

  /** Within a window a queue's integral is at most its own greatest length times the time covered. */
  ghost predicate Bounded(m: Monitor) {
    && (forall q <- m.queues :: var s := m.queues[q];
          && m.windowStart == s.windowStart <= s.lastTime && s.len <= s.max
          && s.integral <= s.max * (s.lastTime - m.windowStart))
    && (forall j :: 0 <= j < |m.timeline| ==> var s := m.timeline[j];
          s.start <= s.end && SummaryBounded(s, s.end - s.start))
  }

  ghost predicate SummaryBounded(s: Summary, length: nat) {
    forall q <- s.queues :: s.queues[q].integral <= s.queues[q].max * length && s.queues[q].max <= s.queueMax
  }

  lemma {:induction false} GrowBound(integral: nat, len: nat, max: nat, newMax: nat, start: nat, last: nat, now: nat)
    requires start <= last <= now && len <= max <= newMax && integral <= max * (last - start)
    ensures integral + len * (now - last) <= newMax * (now - start)
  {
    assert len * (now - last) <= max * (now - last);
    assert max * (last - start) + max * (now - last) == max * (now - start);
    assert max * (now - start) <= newMax * (now - start);
  }

  lemma {:induction false} FlushBounded(m: Monitor)
    requires Bounded(m) && forall q <- m.queues :: m.queues[q].lastTime <= m.windowEnd
    requires m.windowStart <= m.windowEnd
    ensures Bounded(FlushWindow(m))
            && forall q <- FlushWindow(m).queues :: FlushWindow(m).queues[q].lastTime == m.windowEnd
  {
    var r := FlushWindow(m);
    var closed := FinalizeAll(m.queues, m.windowEnd);
    var n := |m.timeline|;
    forall q <- closed ensures closed[q].integral <= closed[q].max * (m.windowEnd - m.windowStart) {
      var s := m.queues[q];
      GrowBound(s.integral, s.len, s.max, s.max, m.windowStart, s.lastTime, m.windowEnd);
    }
    assert SummaryBounded(r.timeline[n], m.windowEnd - m.windowStart);
    forall j | 0 <= j < n ensures r.timeline[j] == m.timeline[j] {}
  }

  lemma {:induction false} CloseBounded(m: Monitor, now: Time)
    requires FlushEnds(m, now) && Bounded(m) && m.windowStart <= m.windowEnd
    requires forall q <- m.queues :: m.queues[q].lastTime <= now && m.queues[q].lastTime <= m.windowEnd
    ensures var r := CloseWindows(m, now);
            Bounded(r) && r.windowStart <= r.windowEnd && forall q <- r.queues :: r.queues[q].lastTime <= now
    decreases if now < m.windowEnd then 0 else 1 + now - m.windowEnd
  {
    if now >= m.windowEnd {
      FlushBounded(m);
      CloseBounded(FlushWindow(m), now);
    }
  }

  lemma {:induction false} ObserveBounded(m: Monitor, now: Time, o: Observation)
    requires FlushEnds(m, now) && Bounded(m) && m.windowStart <= m.windowEnd
    requires forall q <- m.queues :: m.queues[q].lastTime <= now && m.queues[q].lastTime <= m.windowEnd
    requires CloseWindows(m, now).windowStart <= now
    ensures var r := Observe(m, now, o); Bounded(r) && forall q <- r.queues :: r.queues[q].lastTime == now
  {
    CloseBounded(m, now);
    var c := CloseWindows(m, now);
    forall q <- c.queues ensures var s := ObserveLen(c.queues[q], now, c.queues[q].len);
      s.integral <= s.max * (now - c.windowStart) {
      var s := c.queues[q];
      GrowBound(s.integral, s.len, s.max, s.max, c.windowStart, s.lastTime, now);
    }
    FlushedBounded(c, FlushUpTo(m, now), now);
    RecordBounded(FlushUpTo(m, now), now, o);
  }

  lemma {:induction false} FlushedBounded(c: Monitor, r: Monitor, now: Time)
    requires Bounded(c) && c.windowStart <= now && forall q <- c.queues :: c.queues[q].lastTime <= now
    requires r == c.(queues := map q | q in c.queues :: ObserveLen(c.queues[q], now, c.queues[q].len))
    requires forall q <- c.queues :: var s := ObserveLen(c.queues[q], now, c.queues[q].len);
             s.integral <= s.max * (now - c.windowStart)
    ensures Bounded(r) && forall q <- r.queues :: r.queues[q].lastTime == now
  {}

  lemma {:induction false} RecordBounded(r: Monitor, now: Time, o: Observation)
    requires Bounded(r) && r.windowStart <= now && forall q <- r.queues :: r.queues[q].lastTime == now
    ensures o.QueueLen? ==>
      var q := if o.queue in r.queues then r.queues[o.queue] else NewQueue(r.windowStart);
      var n := r.(queues := r.queues[o.queue := ObserveLen(q, now, o.len)]);
      Bounded(n) && forall x <- n.queues :: n.queues[x].lastTime == now
    ensures Bounded(r.(counts := Add(r.counts, o)))
  {
    if o.QueueLen? {
      var q := if o.queue in r.queues then r.queues[o.queue] else NewQueue(r.windowStart);
      GrowBound(q.integral, q.len, q.max, if q.max < o.len then o.len else q.max, r.windowStart, q.lastTime, now);
    }
  }

  /**
   * In each closed window each queue's integral is at most the queue's own greatest length times the
   * window, and that length is at most the summary's.
   */
  lemma {:induction false} WindowIntegralsBounded(start: Time, window: Time, os: seq<Timed>)
    requires Ordered(start, window, os)
    ensures var m := Final(start, window, os);
      && Bounded(m)
      && (forall q <- m.queues :: m.queues[q].lastTime == LastTime(start, os))
      && (forall j :: 0 <= j < |m.timeline| ==> SummaryBounded(m.timeline[j], window))
    decreases |os|
  {
    WindowsTile(start, window, os);
    if os != [] {
      OrderedPrefix(start, window, os);
      var p, t := os[..|os| - 1], os[|os| - 1].at;
      WindowIntegralsBounded(start, window, p);
      WindowsTile(start, window, p);
      CloseTiled(Final(start, window, p), start, t);
      ObserveBounded(Final(start, window, p), t, os[|os| - 1].o);
    }
  }

  // ----- greatest lengths -----

  /**
   * The greatest length of queue q in window j: of the length that the window starts with and of
   * those observed in it.
   */
  function Peak(start: Time, window: Time, os: seq<Timed>, q: QueueId, j: nat): nat
    requires window > 0 && forall i :: 0 <= i < |os| ==> start <= os[i].at
  {
    if os == [] || WindowOf(start, window, os[|os| - 1].at) < j then StepLength(os, q)
    else
      var last, before := os[|os| - 1], Peak(start, window, os[..|os| - 1], q, j);
      if WindowOf(start, window, last.at) == j && last.o.QueueLen? && last.o.queue == q && last.o.len > before
      then last.o.len
      else before
  }

  /** When windows are closed, the first one keeps the queue's maximum and later ones start with its length. */
  ghost predicate ClosedMaxima(m: Monitor, r: Monitor, q: QueueId) {
    && m.timeline <= r.timeline && (q in r.queues <==> q in m.queues)
    && (forall j :: |m.timeline| <= j < |r.timeline| ==>
          && (q in r.timeline[j].queues <==> q in m.queues)
          && (q in m.queues ==>
                r.timeline[j].queues[q].max == if j == |m.timeline| then m.queues[q].max else m.queues[q].len))
    && (q in m.queues ==>
          && r.queues[q].len == m.queues[q].len
          && r.queues[q].max == if |r.timeline| > |m.timeline| then m.queues[q].len else m.queues[q].max)
  }

  lemma {:induction false} FlushMaxima(m: Monitor, q: QueueId)
    ensures ClosedMaxima(m, FlushWindow(m), q)
  {}

  lemma {:induction false} MaximaTrans(m: Monitor, f: Monitor, r: Monitor, q: QueueId)
    requires ClosedMaxima(m, f, q) && ClosedMaxima(f, r, q) && |f.timeline| == |m.timeline| + 1
    ensures ClosedMaxima(m, r, q)
  {
    forall j | |m.timeline| <= j < |r.timeline|
      ensures q in r.timeline[j].queues <==> q in m.queues
      ensures q in m.queues ==>
                r.timeline[j].queues[q].max == if j == |m.timeline| then m.queues[q].max else m.queues[q].len
    {
      if j == |m.timeline| {
        assert r.timeline[j] == f.timeline[j];
      }
    }
  }

  lemma {:induction false} CloseMaxima(m: Monitor, now: Time, q: QueueId)
    requires FlushEnds(m, now)
    ensures ClosedMaxima(m, CloseWindows(m, now), q)
    decreases if now < m.windowEnd then 0 else 1 + now - m.windowEnd
  {
    if now >= m.windowEnd {
      FlushMaxima(m, q);
      CloseMaxima(FlushWindow(m), now, q);
      MaximaTrans(m, FlushWindow(m), CloseWindows(m, now), q);
    }
  }

  /** What holds of queue q after the observations. */
  ghost predicate Peaks(m: Monitor, start: Time, window: Time, os: seq<Timed>, q: QueueId)
    requires window > 0 && forall i :: 0 <= i < |os| ==> start <= os[i].at
  {
    && (q in m.queues ==> m.queues[q].len == StepLength(os, q) <= m.queues[q].max)
    && (q in m.queues ==> m.queues[q].max == Peak(start, window, os, q, |m.timeline|))
    && (q !in m.queues ==> StepLength(os, q) == 0 && forall j: nat :: Peak(start, window, os, q, j) == 0)
    && (forall j :: 0 <= j < |m.timeline| && q in m.timeline[j].queues ==>
          m.timeline[j].queues[q].max == Peak(start, window, os, q, j))
    && (forall j: nat :: j > |m.timeline| ==> Peak(start, window, os, q, j) == StepLength(os, q))
  }

  lemma {:induction false} ClosingPeaks(
      m: Monitor, now: Time, start: Time, window: Time, os: seq<Timed>, q: QueueId)
    requires window > 0 && (forall i :: 0 <= i < |os| ==> start <= os[i].at)
    requires FlushEnds(m, now) && Peaks(m, start, window, os, q)
    ensures Peaks(CloseWindows(m, now), start, window, os, q)
  {
    var r := CloseWindows(m, now);
    CloseMaxima(m, now, q);
    forall j | 0 <= j < |r.timeline| && q in r.timeline[j].queues
      ensures r.timeline[j].queues[q].max == Peak(start, window, os, q, j)
    {
      if j < |m.timeline| {
        assert r.timeline[j] == m.timeline[j];
      }
    }
  }

  lemma {:induction false} ObservedPeaks(c: Monitor, m: Monitor, start: Time, window: Time, os: seq<Timed>, q: QueueId)
    requires window > 0 && (forall i :: 0 <= i < |os| ==> start <= os[i].at) && os != []
    requires Peaks(c, start, window, os[..|os| - 1], q) && m.timeline == c.timeline
    requires |c.timeline| == WindowOf(start, window, os[|os| - 1].at)
    requires var o := os[|os| - 1].o; var hit := o.QueueLen? && o.queue == q;
             && (q in m.queues <==> q in c.queues || hit)
             && (q in m.queues ==>
                   var was := if q in c.queues then c.queues[q].max else 0;
                   && m.queues[q].len == (if hit then o.len else c.queues[q].len)
                   && m.queues[q].max == if hit && o.len > was then o.len else was)
    ensures Peaks(m, start, window, os, q)
  {
    var p := os[..|os| - 1];
    forall j: nat
      ensures j < |m.timeline| ==> Peak(start, window, os, q, j) == Peak(start, window, p, q, j)
      ensures j > |m.timeline| ==> Peak(start, window, os, q, j) == StepLength(os, q)
    {}
  }

  /** In each window, closed or open, the greatest length kept of a queue is the exact one. */
  lemma {:induction false} PeaksAreExact(start: Time, window: Time, os: seq<Timed>, q: QueueId)
    requires Ordered(start, window, os)
    ensures Peaks(Final(start, window, os), start, window, os, q)
    decreases |os|
  {
    if os != [] {
      OrderedPrefix(start, window, os);
      var p, t := os[..|os| - 1], os[|os| - 1].at;
      PeaksAreExact(start, window, p, q);
      WindowsTile(start, window, os);
      ClosingPeaks(Final(start, window, p), t, start, window, p, q);
      ObservedPeaks(CloseWindows(Final(start, window, p), t), Final(start, window, os), start, window, os, q);
    }
  }
}
