/** Whether a failed attempt is retried, and how long to wait before the next one. */
module Retry {
  import opened Prelude
  import opened Errors

  /** Durations are counted in nanoseconds. */
  const DURATION_MAX: nat := U64_MAX * 1_000_000_000 + 999_999_999
  const MAX_ATTEMPTS_HARD_LIMIT: nat := 8

  function SatPlus(a: nat, b: nat): nat { Min(a + b, DURATION_MAX) }
  function SatTimes(a: nat, b: nat): nat { Min(a * b, DURATION_MAX) }

  datatype RetryPolicy = RetryPolicy(maxAttempts: nat, minimumAttemptBudget: nat)

  datatype RetryReason =
    | ConnectFailure | EarlyBodyFailure | StageTimeout | CredentialTimedOut
    | RequestTimeoutStatus | RateLimited | TransientServerError | EarlyTruncation

  datatype RetryDecision = Fail | Retry(reason: RetryReason)

  /** How an error is classified when nothing else stands in the way of a retry. */
  function Classify(error: LlmError, replaySafe: bool): RetryDecision {
    match error
    case Transport(stage) =>
      if stage.ConnectStage? then Retry(ConnectFailure)
      else if stage.BodyStage? && replaySafe then Retry(EarlyBodyFailure)
      else Fail
    case Timeout(stage, overallLimited) =>
      if (stage.ConnectTimeout? || stage.ResponseHeaderTimeout? || stage.FirstEventTimeout?) && !overallLimited
      then Retry(StageTimeout) else Fail
    case Credential(timedOut) => if timedOut then Retry(CredentialTimedOut) else Fail
    case HttpStatus(status, _) =>
      if status == 408 && replaySafe then Retry(RequestTimeoutStatus)
      else if status == 429 then Retry(RateLimited)
      else if 502 <= status <= 504 && replaySafe then Retry(TransientServerError)
      else Fail
    case Protocol(maybe) => if maybe && replaySafe then Retry(EarlyBodyFailure) else Fail
    case TruncatedStream => if replaySafe then Retry(EarlyTruncation) else Fail
    case Cancelled => Fail
    case OtherError(_) => Fail
  }

  predicate Short(remaining: Option<nat>, needed: nat) { remaining.Some? && remaining.value < needed }

  function DecideRetry(
    error: LlmError, delivered: bool, attempt: nat, policy: RetryPolicy, remaining: Option<nat>,
    replaySafe: bool): RetryDecision
  {
    if delivered || attempt >= policy.maxAttempts || Short(remaining, policy.minimumAttemptBudget) then Fail
    else Classify(error, replaySafe)
  }

  // ---------------------------------------------------------------- why a retry was refused

  datatype StopReason = NonRetryable | DeliveryBoundaryClosed | AttemptsExhausted | DeadlineInsufficient | ReplayUnsafe

  predicate RequiresReplaySafety(error: LlmError) {
    || (error.Transport? && error.stage.BodyStage?)
    || (error.HttpStatus? && (error.status == 408 || 502 <= error.status <= 504))
    || error.TruncatedStream?
  }

  function StopReasonFor(
    error: LlmError, delivered: bool, attempt: nat, policy: RetryPolicy, remaining: Option<nat>,
    replaySafe: bool): StopReason
  {
    if delivered then DeliveryBoundaryClosed
    else if attempt >= policy.maxAttempts then AttemptsExhausted
    else if Short(remaining, policy.minimumAttemptBudget) then DeadlineInsufficient
    else if !replaySafe && RequiresReplaySafety(error) then ReplayUnsafe
    else NonRetryable
  }

  /** The provider did not begin to answer: no connection, no credential, no response in time, or a rate limit. */
  predicate Unanswered(error: LlmError) {
    || error == Transport(ConnectStage)
    || error == Credential(true)
    || (error.Timeout? && !error.overallLimited
        && error.timeoutStage in {ConnectTimeout, ResponseHeaderTimeout, FirstEventTimeout})
    || (error.HttpStatus? && error.status == 429)
  }

  /** What is retried when replaying is unsafe, and what safety adds to it. */
  lemma RetriedFailures(error: LlmError)
    ensures Classify(error, false).Retry? <==> Unanswered(error)
    ensures Classify(error, true).Retry?
            <==> Unanswered(error) || RequiresReplaySafety(error) || error == Protocol(true)
    ensures Classify(error, false).Retry? ==> Classify(error, false) == Classify(error, true)
  {
  }

  /** The failure would have been retried, had replaying the request been safe. */
  predicate OnlyReplayForbids(
    error: LlmError, delivered: bool, attempt: nat, policy: RetryPolicy, remaining: Option<nat>, replaySafe: bool)
  {
    && DecideRetry(error, delivered, attempt, policy, remaining, replaySafe).Fail?
    && DecideRetry(error, delivered, attempt, policy, remaining, true).Retry?
  }

  /**
   The reported reason is misleading about replay safety: for a provider error inside a stream that
   may be retriable and that nothing else rules out, or when the deadline passes the minimum budget
   between the reading for the decision (`before`) and the one for the report (`after`).
   */
  predicate Misreported(
    error: LlmError, delivered: bool, attempt: nat, policy: RetryPolicy,
    before: Option<nat>, after: Option<nat>, replaySafe: bool)
  {
    var b := policy.minimumAttemptBudget;
    && !delivered && attempt < policy.maxAttempts
    && (|| (error == Protocol(true) && !Short(before, b))
        || (!replaySafe && RequiresReplaySafety(error) && Short(before, b) != Short(after, b)))
  }

  /**
   `ReplayUnsafe` is reported exactly when only replay safety was missing, if and only if the failure
   is not misreported.
   */
  lemma ReplayUnsafeExplains(
    error: LlmError, delivered: bool, attempt: nat, policy: RetryPolicy,
    before: Option<nat>, after: Option<nat>, replaySafe: bool)
    requires DecideRetry(error, delivered, attempt, policy, before, replaySafe).Fail?
    ensures (StopReasonFor(error, delivered, attempt, policy, after, replaySafe).ReplayUnsafe?
             <==> OnlyReplayForbids(error, delivered, attempt, policy, before, replaySafe))
       <==> !Misreported(error, delivered, attempt, policy, before, after, replaySafe)
  {
  }

  lemma ReplayUnsafeMissesProtocolErrors()
    ensures OnlyReplayForbids(Protocol(true), false, 1, RetryPolicy(3, 100_000_000), None, false)
    ensures StopReasonFor(Protocol(true), false, 1, RetryPolicy(3, 100_000_000), None, false) == NonRetryable
  {
  }

  /** The clock is read again for the report: one nanosecond later the deadline takes the blame. */
  lemma ReplayUnsafeMissesLateReadings()
    ensures var policy := RetryPolicy(3, 100);
            && OnlyReplayForbids(TruncatedStream, false, 1, policy, Some(100), false)
            && StopReasonFor(TruncatedStream, false, 1, policy, Some(99), false) == DeadlineInsufficient
  {
  }

  // ---------------------------------------------------------------- waiting

  datatype WaitPolicy = WaitPolicy(baseDelay: nat, maxDelay: nat, serverDelayCap: nat, maxTotalWait: nat)

  datatype WaitPlan = WaitPlan(clientDelay: nat, serverDelayValid: bool, serverDelayCapped: bool, effectiveDelay: nat)

  function Pow2(n: nat): nat { if n == 0 then 1 else 2 * Pow2(n - 1) }

  /** Powers of two, held at the largest 32-bit factor. */
  function Multiplier(index: nat): nat { Min(Pow2(Min(index, 63)), U32_MAX) }

  function BackoffCap(policy: WaitPolicy, index: nat): nat {
    Min(SatTimes(policy.baseDelay, Multiplier(index)), policy.maxDelay)
  }

  function DurationFromNanos(value: nat): nat {
    Min(value / 1_000_000_000, U64_MAX) * 1_000_000_000 + value % 1_000_000_000
  }

  function ClientDelay(policy: WaitPolicy, index: nat, sample: nat): nat {
    var cap := BackoffCap(policy, index);
    DurationFromNanos(if cap == 0 then 0 else sample % (cap + 1))
  }

  function EffectiveDelay(policy: WaitPolicy, client: nat, serverDelay: Option<nat>): nat {
    var server := if serverDelay.Some? then Min(serverDelay.value, policy.serverDelayCap) else 0;
    Min(Max(client, server), policy.serverDelayCap)
  }

  /** What a wait is planned from: a zero-based retry index, a random sample, and the limits at that moment. */
  datatype WaitInput = WaitInput(
    index: nat, sample: nat, serverDelay: Option<nat>, totalWaited: nat, remaining: Option<nat>, minimumBudget: nat)

  function CalculateRetryWait(policy: WaitPolicy, i: WaitInput): Option<WaitPlan> {
    var client := ClientDelay(policy, i.index, i.sample);
    var effective := EffectiveDelay(policy, client, i.serverDelay);
    if SatPlus(i.totalWaited, effective) > policy.maxTotalWait then None
    else if Short(i.remaining, SatPlus(effective, i.minimumBudget)) then None
    else
      var capped := i.serverDelay.Some? && i.serverDelay.value > policy.serverDelayCap;
      Some(WaitPlan(client, i.serverDelay.Some?, capped, effective))
  }

  lemma NanosAreExact(value: nat)
    requires value <= DURATION_MAX
    ensures DurationFromNanos(value) == value
  {
    assert value / 1_000_000_000 <= U64_MAX;
  }

  lemma {:induction false} Pow2Grows(m: nat, n: nat)
    requires m <= n
    ensures 1 <= Pow2(m) <= Pow2(n)
  {
    if m < n {
      Pow2Grows(m, n - 1);
    } else if m > 0 {
      Pow2Grows(m - 1, n - 1);
    }
  }

  lemma SmallMultiplier(index: nat)
    requires index < 32
    ensures Multiplier(index) == Pow2(index)
  {
    Pow2Grows(index, 31);
    LargestPower();
  }

  lemma LargestPower()
    ensures Pow2(31) == 0x8000_0000
  {
    assert Pow2(8) == 256;
    assert Pow2(16) == 65536;
    assert Pow2(24) == 0x100_0000;
  }

  lemma CapOnce(product: nat, max: nat)
    requires max <= DURATION_MAX
    ensures Min(Min(product, DURATION_MAX), max) == Min(product, max)
  {
  }

  lemma LargeMultiplier(index: nat)
    requires index >= 32
    ensures Multiplier(index) == U32_MAX < Pow2(index)
  {
    LargestPower();
    assert Pow2(32) == 2 * Pow2(31);
    Pow2Grows(32, index);
    Pow2Grows(32, Min(index, 63));
  }

  lemma CapProduct(policy: WaitPolicy, index: nat)
    requires policy.maxDelay <= DURATION_MAX
    ensures BackoffCap(policy, index) == Min(policy.baseDelay * Multiplier(index), policy.maxDelay)
  {
    var product := policy.baseDelay * Multiplier(index);
    assert SatTimes(policy.baseDelay, Multiplier(index)) == Min(product, DURATION_MAX);
    CapOnce(product, policy.maxDelay);
  }

  lemma LargerFactor(base: nat, small: nat, large: nat)
    requires small < large
    ensures base * small <= base * large && (base > 0 ==> base * small < base * large)
  {
  }

  /**
   The backoff is exponential up to the configured ceiling, if and only if it needs fewer than 32
   doublings or the largest 32-bit factor already reaches the ceiling.
   */
  lemma BackoffIsExponential(policy: WaitPolicy, index: nat)
    requires policy.maxDelay <= DURATION_MAX
    ensures BackoffCap(policy, index) == Min(policy.baseDelay * Pow2(index), policy.maxDelay)
       <==> index < 32 || policy.baseDelay == 0 || policy.baseDelay * U32_MAX >= policy.maxDelay
  {
    CapProduct(policy, index);
    if index < 32 {
      SmallMultiplier(index);
    } else {
      LargeMultiplier(index);
      LargerFactor(policy.baseDelay, U32_MAX, Pow2(index));
    }
  }

  /** With a base of one nanosecond and a ceiling of one hour the thirty-third delay falls short by one nanosecond. */
  lemma BackoffCanFallShort()
    ensures var policy := WaitPolicy(1, 3_600_000_000_000, 60_000_000_000, 60_000_000_000);
            BackoffCap(policy, 32) == 4_294_967_295
              && Min(policy.baseDelay * Pow2(32), policy.maxDelay) == 4_294_967_296
  {
    CapProduct(WaitPolicy(1, 3_600_000_000_000, 60_000_000_000, 60_000_000_000), 32);
    LargeMultiplier(32);
    LargestPower();
    assert Pow2(32) == 2 * Pow2(31);
  }

  lemma Remainder(sample: nat, cap: nat)
    ensures sample % (cap + 1) <= cap
    ensures sample <= cap ==> sample % (cap + 1) == sample
  {
  }

  lemma JitterAt(policy: WaitPolicy, index: nat, sample: nat)
    requires policy.maxDelay <= DURATION_MAX
    ensures ClientDelay(policy, index, sample) <= BackoffCap(policy, index)
    ensures sample <= BackoffCap(policy, index) ==> ClientDelay(policy, index, sample) == sample
  {
    var cap := BackoffCap(policy, index);
    Remainder(sample, cap);
    NanosAreExact(if cap == 0 then 0 else sample % (cap + 1));
  }

  /** Full jitter: the client's share of a wait is at most the cap, and every value up to the cap can be drawn. */
  lemma JitterCoversTheCap(policy: WaitPolicy, index: nat, sample: nat)
    requires policy.maxDelay <= DURATION_MAX
    ensures ClientDelay(policy, index, sample) <= BackoffCap(policy, index)
    ensures forall d :: 0 <= d <= BackoffCap(policy, index) ==> ClientDelay(policy, index, d) == d
  {
    JitterAt(policy, index, sample);
    forall d | 0 <= d <= BackoffCap(policy, index) ensures ClientDelay(policy, index, d) == d {
      JitterAt(policy, index, d);
    }
  }

  /** The bounds every planned wait keeps, and exactly when there is none. */
  lemma WaitKeepsItsBounds(policy: WaitPolicy, i: WaitInput)
    requires policy.maxDelay <= DURATION_MAX && policy.serverDelayCap <= DURATION_MAX
    ensures var plan := CalculateRetryWait(policy, i);
            var wanted := EffectiveDelay(policy, ClientDelay(policy, i.index, i.sample), i.serverDelay);
            && (plan.None? <==>
                  || SatPlus(i.totalWaited, wanted) > policy.maxTotalWait
                  || Short(i.remaining, SatPlus(wanted, i.minimumBudget)))
            && (plan.Some? ==>
                  && plan.value.effectiveDelay <= Min(policy.serverDelayCap, policy.maxTotalWait)
                  && (i.serverDelay.Some? ==>
                        plan.value.effectiveDelay >= Min(i.serverDelay.value, policy.serverDelayCap))
                  && (i.serverDelay.None? ==> plan.value.effectiveDelay <= BackoffCap(policy, i.index)))
  {
    JitterAt(policy, i.index, i.sample);
  }

  /** A way of planning waits, and that it never plans beyond a total. */
  type Planner = WaitInput -> Option<WaitPlan>

  ghost predicate Within(plan: Planner, limit: nat) {
    forall i: WaitInput :: plan(i).Some? ==> SatPlus(i.totalWaited, plan(i).value.effectiveDelay) <= limit
  }

  function PlannerFor(policy: WaitPolicy): Planner {
    i => CalculateRetryWait(policy, i)
  }

  lemma PlannerStaysWithin(policy: WaitPolicy)
    ensures Within(PlannerFor(policy), policy.maxTotalWait)
  {
  }
}
