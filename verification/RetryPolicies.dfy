/** Retry policies: whether a failed or timed-out attempt is tried again, and after how long. */
module RetryPolicies {
  import opened SimTime
  import opened Options

  /** What every counting policy keeps: how many retries it may grant, and how often it was asked. */
  datatype Budget = Budget(max: nat, current: nat)

  /** One question: it always counts; a retry is granted within the limit and never after a success. */
  function Spend(b: Budget, success: bool): (Budget, bool) {
    (b.(current := b.current + 1), b.current + 1 <= b.max && !success)
  }

  /** How many of a sequence of questions are granted. */
  function Granted(b: Budget, answers: seq<bool>): nat
    decreases |answers|
  {
    if answers == [] then 0
    else (if Spend(b, answers[0]).1 then 1 else 0) + Granted(Spend(b, answers[0]).0, answers[1..])
  }

  /** However many questions are asked, no more retries are granted than the limit leaves. */
  lemma {:induction false} GrantsAreBounded(b: Budget, answers: seq<bool>)
    ensures Granted(b, answers) <= if b.current <= b.max then b.max - b.current else 0
    decreases |answers|
  {
    if answers != [] {
      GrantsAreBounded(Spend(b, answers[0]).0, answers[1..]);
    }
  }

  /** After failures every question is granted until the limit is reached, and none after that. */
  lemma {:induction false} FailuresAreGranted(b: Budget, answers: seq<bool>)
    requires true !in answers
    ensures var left := if b.current <= b.max then b.max - b.current else 0;
            Granted(b, answers) == if |answers| <= left then |answers| else left
    decreases |answers|
  {
    if answers != [] {
      assert answers[0] in answers;
      FailuresAreGranted(Spend(b, answers[0]).0, answers[1..]);
    }
  }

  /** A response counts as a success; a timeout is no response. */
  predicate Succeeded(response: Option<bool>) { response == Some(true) }

  class FixedRetryPolicy {
    const maxAttempts: nat
    var currentAttempt: nat
    const retryDelay: Time

    constructor (maxAttempts: nat, retryDelay: Time)
      ensures Left() == Budget(maxAttempts, 0) && this.retryDelay == retryDelay
    {
      this.maxAttempts, currentAttempt, this.retryDelay := maxAttempts, 0, retryDelay;
    }

    function Left(): Budget
      reads this
    {
      Budget(maxAttempts, currentAttempt)
    }

    method Reset()
      modifies this
      ensures Left() == Budget(maxAttempts, 0)
    {
      currentAttempt := 0;
    }

    method ShouldRetry(response: Option<bool>) returns (delay: Option<Time>)
      modifies this
      ensures Left() == Spend(old(Left()), Succeeded(response)).0
      ensures currentAttempt == old(currentAttempt) + 1
      ensures delay.Some? <==> old(currentAttempt) < maxAttempts && response != Some(true)
      ensures delay.Some? ==> delay.value == retryDelay
    {
      currentAttempt := currentAttempt + 1;
      if currentAttempt > maxAttempts || Succeeded(response) {
        return None;
      }
      return Some(retryDelay);
    }
  }

  class ExponentialBackoffPolicy {
    const maxAttempts: nat
    var currentAttempt: nat
    /** The uncapped delay before the k-th retry. */
    const backoff: nat -> Time
    const maxDelay: Time
    const jitter: bool

    constructor (maxAttempts: nat, backoff: nat -> Time, maxDelay: Time, jitter: bool)
      ensures Left() == Budget(maxAttempts, 0)
      ensures this.backoff == backoff && this.maxDelay == maxDelay && this.jitter == jitter
    {
      this.maxAttempts, currentAttempt := maxAttempts, 0;
      this.backoff, this.maxDelay, this.jitter := backoff, maxDelay, jitter;
    }

    function Left(): Budget
      reads this
    {
      Budget(maxAttempts, currentAttempt)
    }

    method Reset()
      modifies this
      ensures Left() == Budget(maxAttempts, 0)
    {
      currentAttempt := 0;
    }

    /** `jittered` is what the generator makes of the capped delay. */
    method ShouldRetry(response: Option<bool>, jittered: Time -> Time) returns (delay: Option<Time>)
      modifies this
      ensures Left() == Spend(old(Left()), Succeeded(response)).0
      ensures currentAttempt == old(currentAttempt) + 1
      ensures delay.Some? <==> old(currentAttempt) < maxAttempts && response != Some(true)
      ensures delay.Some? && !jitter ==> delay.value <= maxDelay && delay.value <= backoff(old(currentAttempt) + 1)
      ensures delay.Some? && !jitter ==> delay.value == maxDelay || delay.value == backoff(old(currentAttempt) + 1)
      ensures delay.Some? && jitter ==>
              var d := backoff(old(currentAttempt) + 1); delay.value == jittered(if d <= maxDelay then d else maxDelay)
    {
      currentAttempt := currentAttempt + 1;
      if currentAttempt > maxAttempts || Succeeded(response) {
        return None;
      }
      var d := if backoff(currentAttempt) <= maxDelay then backoff(currentAttempt) else maxDelay;
      return Some(if jitter then jittered(d) else d);
    }
  }

  const U32: nat := 0x1_0000_0000

  type Tokens = n: nat | n < 0x1_0000_0000

  /** Tokens are added in 32 bits, which wrap around, and only then cut to what the bucket holds. */
  function AddTokens(current: Tokens, gained: Tokens, max: Tokens): (r: Tokens)
    ensures r <= max
  {
    var sum := (current + gained) % U32;
    if sum <= max then sum else max
  }

  /** A refill fills the bucket as it should exactly if the addition does not wrap; otherwise tokens are lost. */
  lemma {:induction false} RefillIsExact(current: Tokens, gained: Tokens, max: Tokens)
    requires current <= max
    ensures AddTokens(current, gained, max) == (if current + gained <= max then current + gained else max) <==>
            current + gained < U32
    ensures current + gained >= U32 ==> AddTokens(current, gained, max) < current
  {
    if current + gained >= U32 {
      assert (current + gained) % U32 == current + gained - U32;
    }
  }

  class TokenBucketRetryPolicy {
    const maxAttempts: nat
    var currentAttempt: nat
    const maxTokens: Tokens
    var currentTokens: Tokens
    /** Tokens gained over a span of time, rounded down, at most all that 32 bits hold. */
    const refill: Time -> Tokens
    var lastRefill: Option<Time>
    const baseDelay: Time

    ghost predicate Valid()
      reads this
    {
      currentTokens <= maxTokens
    }

    constructor (maxAttempts: nat, maxTokens: Tokens, refill: Time -> Tokens, baseDelay: Time)
      ensures Valid() && Left() == Budget(maxAttempts, 0) && currentTokens == this.maxTokens == maxTokens
      ensures this.refill == refill && this.baseDelay == baseDelay && lastRefill == None
    {
      this.maxAttempts, currentAttempt := maxAttempts, 0;
      this.maxTokens, currentTokens := maxTokens, maxTokens;
      this.refill, lastRefill, this.baseDelay := refill, None, baseDelay;
    }

    function Left(): Budget
      reads this
    {
      Budget(maxAttempts, currentAttempt)
    }

    /** Tokens outlive the request. */
    method Reset()
      modifies this`currentAttempt
      ensures Left() == Budget(maxAttempts, 0)
    {
      currentAttempt := 0;
    }

    /** What a refill at `now` makes of the tokens, and the refill time it leaves. */
    function Refilled(now: Time): (Tokens, Option<Time>)
      reads this
    {
      if lastRefill.None? then (currentTokens, Some(now))
      else
        var gained := refill(Since(now, lastRefill.value));
        if gained == 0 then (currentTokens, lastRefill)
        else (AddTokens(currentTokens, gained, maxTokens), Some(now))
    }

    method RefillTokens(now: Time)
      requires Valid()
      modifies this`currentTokens, this`lastRefill
      ensures Valid() && (currentTokens, lastRefill) == old(Refilled(now))
      ensures old(lastRefill).None? ==> currentTokens == old(currentTokens) && lastRefill == Some(now)
      ensures old(lastRefill).Some? ==>
        var gained := refill(Since(now, old(lastRefill).value));
        var sum := old(currentTokens) + gained;
        if gained == 0 then currentTokens == old(currentTokens) && lastRefill == old(lastRefill)
        else lastRefill == Some(now) && (sum < U32 ==> currentTokens == if sum <= maxTokens then sum else maxTokens)
    {
      if lastRefill.Some? {
        var gained := refill(Since(now, lastRefill.value));
        if gained > 0 {
          var sum := (currentTokens + gained) % U32;
          currentTokens := if sum <= maxTokens then sum else maxTokens;
          lastRefill := Some(now);
        }
      } else {
        lastRefill := Some(now);
      }
    }

    /** A retry with a token is immediate; without one it waits. A question that is refused touches no token. */
    method ShouldRetry(startedAt: Time, response: Option<bool>) returns (delay: Option<Time>)
      requires Valid()
      modifies this
      ensures Valid() && Left() == Spend(old(Left()), Succeeded(response)).0
      ensures currentAttempt == old(currentAttempt) + 1
      ensures delay.Some? <==> old(currentAttempt) < maxAttempts && response != Some(true)
      ensures delay.None? ==> currentTokens == old(currentTokens) && lastRefill == old(lastRefill)
      ensures delay.Some? ==>
                var (tokens, at) := old(Refilled(startedAt));
                && lastRefill == at
                && (if tokens > 0 then delay == Some(0) && currentTokens == tokens - 1
                    else delay == Some(baseDelay) && currentTokens == 0)
    {
      currentAttempt := currentAttempt + 1;
      if currentAttempt > maxAttempts {
        return None;
      }
      if Succeeded(response) {
        return None;
      }
      RefillTokens(startedAt);
      if currentTokens > 0 {
        currentTokens := currentTokens - 1;
        return Some(0);
      }
      return Some(baseDelay);
    }
  }

  lemma {:induction false} ShareIsAtMostOne(part: nat, whole: nat)
    requires part <= whole && whole > 0
    ensures 0.0 <= part as real / whole as real <= 1.0
  {}

  class SuccessBasedRetryPolicy {
    const maxAttempts: nat
    var currentAttempt: nat
    const baseDelay: Time
    /** The longer delay used while the success rate is low. */
    const slowDelay: Time
    const windowSize: nat
    var recentOutcomes: seq<bool>
    const minSuccessRate: real

    constructor (maxAttempts: nat, baseDelay: Time, slowDelay: Time, windowSize: nat, minSuccessRate: real)
      ensures Left() == Budget(maxAttempts, 0) && recentOutcomes == []
      ensures this.baseDelay == baseDelay && this.slowDelay == slowDelay
      ensures this.windowSize == windowSize && this.minSuccessRate == minSuccessRate
    {
      this.maxAttempts, currentAttempt, this.baseDelay, this.slowDelay := maxAttempts, 0, baseDelay, slowDelay;
      this.windowSize, recentOutcomes, this.minSuccessRate := windowSize, [], minSuccessRate;
    }

    function Left(): Budget
      reads this
    {
      Budget(maxAttempts, currentAttempt)
    }

    method Reset()
      modifies this`currentAttempt
      ensures Left() == Budget(maxAttempts, 0)
    {
      currentAttempt := 0;
    }

    /** The window keeps the latest outcomes. */
    method RecordOutcome(success: bool)
      requires |recentOutcomes| <= windowSize
      modifies this`recentOutcomes
      ensures |recentOutcomes| <= windowSize
      ensures var all := old(recentOutcomes) + [success];
        recentOutcomes == if |all| <= windowSize then all else all[|all| - windowSize..]
    {
      recentOutcomes := recentOutcomes + [success];
      if |recentOutcomes| > windowSize {
        recentOutcomes := recentOutcomes[1..];
      }
    }

    static function Successes(outcomes: seq<bool>): (n: nat)
      ensures n <= |outcomes| && n == multiset(outcomes)[true]
    {
      assert outcomes != [] ==> outcomes == [outcomes[0]] + outcomes[1..];
      if outcomes == [] then 0 else (if outcomes[0] then 1 else 0) + Successes(outcomes[1..])
    }

    /** With no data, success is assumed. */
    function SuccessRate(): (rate: real)
      reads this
      ensures 0.0 <= rate <= 1.0
      ensures recentOutcomes == [] ==> rate == 1.0
      ensures recentOutcomes != [] ==>
              rate == multiset(recentOutcomes)[true] as real / |recentOutcomes| as real
    {
      if recentOutcomes == [] then 1.0 else
        ShareIsAtMostOne(Successes(recentOutcomes), |recentOutcomes|);
        Successes(recentOutcomes) as real / |recentOutcomes| as real
    }

    method ShouldRetry(response: Option<bool>) returns (delay: Option<Time>)
      modifies this`currentAttempt
      ensures Left() == Spend(old(Left()), Succeeded(response)).0
      ensures currentAttempt == old(currentAttempt) + 1
      ensures delay.Some? <==> old(currentAttempt) < maxAttempts && response != Some(true)
      ensures delay.Some? ==> delay.value == if SuccessRate() < minSuccessRate then slowDelay else baseDelay
    {
      currentAttempt := currentAttempt + 1;
      if currentAttempt > maxAttempts {
        return None;
      }
      if Succeeded(response) {
        return None;
      }
      return Some(if SuccessRate() < minSuccessRate then slowDelay else baseDelay);
    }
  }
}
