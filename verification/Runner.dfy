/** Attempts of one logical request: opening them, retrying them, and streaming the one that delivers. */
module Runner {
  import opened Prelude
  import opened Errors
  import opened Events
  import opened Retry
  import opened ExecutionState

  // ---------------------------------------------------------------- the outside world

  /** What waiting for the next event of an attempt comes to. */
  datatype Arrival = Arrived(event: AssistantEvent) | Broke(error: LlmError) | Ended

  datatype RateLimit = RateLimit(limited: bool, retryAfterValid: bool, fieldsPresent: bool)

  /** What is reported on the way to a response. */
  datatype Milestone =
    | EndpointResolved
    | CredentialResolved(attempt: nat)
    | HeadersResolved
    | TransportStarted
    | StatusReceived(status: nat, requestId: Option<Bytes>)
    | RateLimitObserved(rateLimit: RateLimit)

  /** How far executing an attempt gets; an answer may still be rejected. */
  datatype Exchange =
    | NoEndpoint(error: LlmError)
    | NoCredential(error: LlmError)
    | NoResponse(error: LlmError)
    | Answered(status: nat, requestId: Option<Bytes>, rateLimit: Option<RateLimit>, rejected: Option<LlmError>)
  {
    function Refusal(): Option<LlmError> { if Answered? then rejected else Some(error) }

    /** How many milestones are reached. */
    function Reach(): (k: nat)
      ensures k <= 6
    {
      match this
      case NoEndpoint(_) => 0
      case NoCredential(_) => 1
      case NoResponse(_) => 4
      case Answered(_, _, limit, _) => if limit.None? then 5 else 6
    }

    /** The milestones come in a fixed order. */
    function MilestoneAt(i: nat, n: nat): Milestone
      requires i < Reach()
    {
      if i == 0 then EndpointResolved
      else if i == 1 then CredentialResolved(n)
      else if i == 2 then HeadersResolved
      else if i == 3 then TransportStarted
      else if i == 4 then StatusReceived(status, requestId)
      else RateLimitObserved(rateLimit.value)
    }
  }

  /** An attempt either fails to open or answers every wait for an event. */
  datatype Attempt = Attempt(exchange: Exchange, arrivals: nat -> Arrival)

  /** Clock readings, random sample and wait outcome around the retry of one attempt. */
  datatype Pause = Pause(
    remaining: Option<nat>, remainingAtStop: Option<nat>, remainingAtWait: Option<nat>,
    sample: nat, interrupted: Option<LlmError>)

  /**
   Everything the network, the clock and the random source may do, by attempt number; before the first
   attempt planning, preparation and the preflight may fail.
   */
  datatype World = World(
    planning: Option<LlmError>, preparation: Option<LlmError>, preflight: Option<LlmError>,
    attempts: nat -> Attempt, pauses: nat -> Pause)

  datatype Capability = Supported | Unsupported | UnknownCapability

  datatype KeySource = Caller | SdkGenerated

  /** Whether requests carry an idempotency key, and where it comes from. */
  datatype Idempotency = Idempotency(capability: Capability, source: Option<KeySource>) {
    predicate ReplaySafe() { source.Some? && capability.Supported? }
  }

  datatype Config = Config(retries: RetryPolicy, plan: Planner, idempotency: Idempotency) {
    predicate ReplaySafe() { idempotency.ReplaySafe() }
  }

  // ---------------------------------------------------------------- specification

  function ServerDelay(error: LlmError): Option<nat> { if error.HttpStatus? then error.retryAfter else None }

  function Decision(w: World, c: Config, delivered: bool, error: LlmError, n: nat): RetryDecision {
    DecideRetry(error, delivered, n, c.retries, w.pauses(n).remaining, c.ReplaySafe())
  }

  /** The first retry after attempt one has index zero. */
  function RetryIndex(n: nat): nat { if n == 0 then 0 else n - 1 }

  function Wait(w: World, c: Config, error: LlmError, n: nat, waited: nat): Option<WaitPlan> {
    c.plan(WaitInput(RetryIndex(n), w.pauses(n).sample, ServerDelay(error), waited,
                     w.pauses(n).remainingAtWait, c.retries.minimumAttemptBudget))
  }

  /** The wait before another attempt after the failure of attempt `n`; `None` when the failure is final. */
  function PlannedWait(
    w: World, c: Config, delivered: bool, error: LlmError, n: nat, waited: nat): (plan: Option<WaitPlan>)
    ensures plan.Some? ==> !delivered && n < c.retries.maxAttempts
  {
    if n >= U32_MAX || Decision(w, c, delivered, error, n).Fail? then None else Wait(w, c, error, n, waited)
  }

  /** The hard limit on attempts keeps every retry in the range where the backoff is exponential. */
  lemma HardLimitKeepsBackoffExponential(
    w: World, c: Config, policy: WaitPolicy, delivered: bool, error: LlmError, n: nat, waited: nat)
    requires c.retries.maxAttempts <= MAX_ATTEMPTS_HARD_LIMIT && c.plan == PlannerFor(policy)
    requires policy.maxDelay <= DURATION_MAX && policy.serverDelayCap <= DURATION_MAX
    requires PlannedWait(w, c, delivered, error, n, waited).Some?
    ensures var cap := Min(policy.baseDelay * Pow2(RetryIndex(n)), policy.maxDelay);
            && BackoffCap(policy, RetryIndex(n)) == cap
            && (ServerDelay(error).None? ==> PlannedWait(w, c, delivered, error, n, waited).value.effectiveDelay <= cap)
  {
    BackoffIsExponential(policy, RetryIndex(n));
    WaitKeepsItsBounds(policy, WaitInput(RetryIndex(n), w.pauses(n).sample, ServerDelay(error), waited,
                                         w.pauses(n).remainingAtWait, c.retries.minimumAttemptBudget));
  }

  /** The error an attempt fails with before its first event, if it does. */
  function EarlyError(a: Attempt): Option<LlmError> {
    if a.exchange.Refusal().Some? then a.exchange.Refusal() else ArrivalError(a.arrivals(0))
  }

  function ArrivalError(arrival: Arrival): Option<LlmError> {
    match arrival
    case Arrived(_) => None
    case Broke(error) => Some(error)
    case Ended => Some(TruncatedStream)
  }

  /** The attempt that gets to deliver, or the error the request fails with; and the time waited. */
  datatype Fate = Winner(attempt: nat, waited: nat) | Lost(error: LlmError, attempt: nat, waited: nat)

  /** What becomes of a request whose attempt `n` is about to be opened. */
  function Resolve(w: World, c: Config, n: nat, waited: nat): Fate
    decreases c.retries.maxAttempts - n
  {
    var error := EarlyError(w.attempts(n));
    if error.None? then Winner(n, waited) else AfterFailure(w, c, error.value, n, waited)
  }

  function AfterFailure(w: World, c: Config, error: LlmError, n: nat, waited: nat): Fate
    decreases c.retries.maxAttempts - n, 1
  {
    match PlannedWait(w, c, false, error, n, waited)
    case None => Lost(error, n, waited)
    case Some(plan) => AfterPause(w, c, n, plan.effectiveDelay, waited)
  }

  /** What becomes of a request that waits for `delay` before the attempt after `n`. */
  function AfterPause(w: World, c: Config, n: nat, delay: nat, waited: nat): Fate
    requires n < c.retries.maxAttempts
    decreases c.retries.maxAttempts - n, 0
  {
    match w.pauses(n).interrupted
    case Some(error) => Lost(error, n, waited)
    case None => Resolve(w, c, n + 1, SatPlus(waited, delay))
  }

  lemma EarlyFailure(w: World, c: Config, n: nat, waited: nat)
    requires EarlyError(w.attempts(n)).Some?
    ensures Resolve(w, c, n, waited) == AfterFailure(w, c, EarlyError(w.attempts(n)).value, n, waited)
  {
  }

  /** What attempt `n` hands out at its `i`-th event; nothing is retried after a delivery. */
  function ItemAt(w: World, n: nat, i: nat): Result<AssistantEvent, LlmError> {
    match w.attempts(n).arrivals(i)
    case Arrived(event) => Ok(event)
    case Broke(error) => Err(error)
    case Ended => Err(TruncatedStream)
  }

  function FirstItem(w: World, fate: Fate): Result<AssistantEvent, LlmError> {
    if fate.Lost? then Err(fate.error) else ItemAt(w, fate.attempt, 0)
  }

  // ---------------------------------------------------------------- what is reported about attempts

  datatype AttemptReport =
    | IdempotencyPrepared(idempotency: Idempotency)
    | AttemptStarted(attempt: nat)
    | Reached(milestone: Milestone)
    | AttemptFailed(attempt: nat, error: LlmError)
    | AttemptTimedOut(attempt: nat, stage: TimeoutStage, overallLimited: bool)
    | RetryDecided(attempt: nat, retryReason: Option<RetryReason>, stopReason: Option<StopReason>)
    | RetryScheduled(
        previous: nat, next: nat, reason: RetryReason, delay: nat, serverDelayApplied: bool, serverDelayCapped: bool)
    | RetryExhausted(attempt: nat, stop: StopReason)

  function FailedReports(error: LlmError, n: nat): seq<AttemptReport> {
    [AttemptFailed(n, error)]
    + if error.Timeout? then [AttemptTimedOut(n, error.timeoutStage, error.overallLimited)] else []
  }

  function StopReports(n: nat, reason: StopReason): seq<AttemptReport> {
    [RetryDecided(n, None, Some(reason))] + [RetryExhausted(n, reason)]
  }

  function ScheduleReport(error: LlmError, n: nat, reason: RetryReason, plan: Option<WaitPlan>): AttemptReport {
    if plan.None? then RetryExhausted(n, DeadlineInsufficient)
    else
      var server := ServerDelay(error);
      RetryScheduled(n, n + 1, reason, plan.value.effectiveDelay,
                     plan.value.serverDelayValid && server.Some? && server.value >= plan.value.clientDelay,
                     plan.value.serverDelayCapped)
  }

  function RetryReports(
    w: World, c: Config, delivered: bool, error: LlmError, n: nat, waited: nat): seq<AttemptReport>
  {
    if n >= U32_MAX then StopReports(n, AttemptsExhausted)
    else
      match Decision(w, c, delivered, error, n)
      case Fail =>
        StopReports(n, StopReasonFor(error, delivered, n, c.retries, w.pauses(n).remainingAtStop, c.ReplaySafe()))
      case Retry(reason) =>
        [RetryDecided(n, Some(reason), None)] + [ScheduleReport(error, n, reason, Wait(w, c, error, n, waited))]
  }

  /** Everything that is reported when attempt `n` fails. */
  function FailureReports(
    w: World, c: Config, delivered: bool, error: LlmError, n: nat, waited: nat): seq<AttemptReport>
  {
    FailedReports(error, n) + RetryReports(w, c, delivered, error, n, waited)
  }

  /** The numbers of the attempts that were started. */
  function Starts(log: seq<AttemptReport>): seq<nat> {
    if log == [] then []
    else Starts(log[..|log| - 1]) + if log[|log| - 1].AttemptStarted? then [log[|log| - 1].attempt] else []
  }

  /** The delays that were announced before retries. */
  function Delays(log: seq<AttemptReport>): seq<nat> {
    if log == [] then []
    else Delays(log[..|log| - 1]) + if log[|log| - 1].RetryScheduled? then [log[|log| - 1].delay] else []
  }

  lemma OneReport(log: seq<AttemptReport>, r: AttemptReport)
    ensures Starts(log + [r]) == if r.AttemptStarted? then Starts(log) + [r.attempt] else Starts(log)
    ensures Delays(log + [r]) == if r.RetryScheduled? then Delays(log) + [r.delay] else Delays(log)
  {
    TakeDrop(log, [r]);
    EmptySides(Starts(log));
    EmptySides(Delays(log));
  }

  function Announced(plan: Option<WaitPlan>): seq<nat> { if plan.None? then [] else [plan.value.effectiveDelay] }

  lemma FailedReportsCount(log: seq<AttemptReport>, error: LlmError, n: nat)
    ensures Starts(log + FailedReports(error, n)) == Starts(log) && Delays(log + FailedReports(error, n)) == Delays(log)
  {
    OneReport(log, AttemptFailed(n, error));
    if error.Timeout? {
      var last := AttemptTimedOut(n, error.timeoutStage, error.overallLimited);
      OneReport(log + [AttemptFailed(n, error)], last);
      Regroup(log, [AttemptFailed(n, error)], [last]);
    } else {
      EmptySides([AttemptFailed(n, error)]);
    }
  }

  lemma TwoReports(log: seq<AttemptReport>, first: AttemptReport, second: AttemptReport)
    requires !first.AttemptStarted? && !first.RetryScheduled? && !second.AttemptStarted?
    ensures Starts(log + ([first] + [second])) == Starts(log)
    ensures Delays(log + ([first] + [second])) == Delays(log) + if second.RetryScheduled? then [second.delay] else []
  {
    OneReport(log, first);
    OneReport(log + [first], second);
    Regroup(log, [first], [second]);
    EmptySides(Delays(log));
  }

  lemma RetryReportsCount(
    log: seq<AttemptReport>, w: World, c: Config, delivered: bool, error: LlmError, n: nat, waited: nat)
    ensures var all := log + RetryReports(w, c, delivered, error, n, waited);
            && Starts(all) == Starts(log)
            && Delays(all) == Delays(log) + Announced(PlannedWait(w, c, delivered, error, n, waited))
  {
    var stop := StopReasonFor(error, delivered, n, c.retries, w.pauses(n).remainingAtStop, c.ReplaySafe());
    if n >= U32_MAX {
      TwoReports(log, RetryDecided(n, None, Some(AttemptsExhausted)), RetryExhausted(n, AttemptsExhausted));
    } else {
      match Decision(w, c, delivered, error, n)
      case Fail => TwoReports(log, RetryDecided(n, None, Some(stop)), RetryExhausted(n, stop));
      case Retry(reason) =>
        TwoReports(log, RetryDecided(n, Some(reason), None),
          ScheduleReport(error, n, reason, Wait(w, c, error, n, waited)));
    }
  }

  /** The reports of a failure start no attempt, and announce a delay exactly when another attempt is to follow. */
  lemma FailureReportsCount(
    log: seq<AttemptReport>, w: World, c: Config, delivered: bool, error: LlmError, n: nat, waited: nat)
    ensures var all := log + FailureReports(w, c, delivered, error, n, waited);
            && Starts(all) == Starts(log)
            && Delays(all) == Delays(log) + Announced(PlannedWait(w, c, delivered, error, n, waited))
  {
    FailedReportsCount(log, error, n);
    RetryReportsCount(log + FailedReports(error, n), w, c, delivered, error, n, waited);
    Regroup(log, FailedReports(error, n), RetryReports(w, c, delivered, error, n, waited));
  }

  function Upto(n: nat): seq<nat> { if n == 0 then [] else Upto(n - 1) + [n] }

  /** Saturating sum of completed waits. */
  function SatSum(waits: seq<nat>): nat {
    if waits == [] then 0 else SatPlus(SatSum(waits[..|waits| - 1]), waits[|waits| - 1])
  }

  lemma SatSumAppend(waits: seq<nat>, d: nat)
    ensures SatSum(waits + [d]) == SatPlus(SatSum(waits), d)
  {
    TakeDrop(waits, [d]);
  }

  // ---------------------------------------------------------------- the runner

  /**
   The most that can be awaited before the first event or the end: per attempt six milestones, that it
   opens, an event, and the wait after it.
   */
  function Longest(c: Config): nat { 9 * Max(1, c.retries.maxAttempts) }

  /** What is being awaited. */
  datatype Phase =
    | Unstarted
    | Opening(reached: nat)    // the next milestone of the current attempt, or that it opens
    | Listening                // its next event
    | Pausing(delay: nat)      // the end of the wait before the next attempt
    | Over

  /** The answer to a poll. */
  datatype Reply = NotYet | Finished | Handed(item: Result<AssistantEvent, LlmError>)

  class RequestRunner {
    const world: World
    const config: Config
    const state: RequestExecutionState
    /** The current attempt, and how many of its events have been handed out. */
    var number: nat
    var polled: nat
    var phase: Phase
    var totalWaited: nat
    var log: seq<AttemptReport>
    ghost var waits: seq<nat>

    /** Attempts up to `number` were started, all but the last after a completed wait. */
    ghost predicate Numbered()
      reads this`number, this`log, this`waits, this`totalWaited
    {
      && 1 <= number <= Max(1, config.retries.maxAttempts)
      && Starts(log) == Upto(number)
      && |waits| == number - 1
      && totalWaited == SatSum(waits)
    }

    /** Completed waits were announced; the wait under way was, too. */
    ghost predicate Announces()
      reads this`number, this`log, this`waits, this`phase
    {
      match phase
      case Over => waits <= Delays(log) && |Delays(log)| <= number
      case Pausing(delay) => Delays(log) == waits + [delay] && number < config.retries.maxAttempts
      case _ => Delays(log) == waits
    }

    ghost predicate Valid()
      reads this
    {
      && Numbered() && Announces() && !phase.Unstarted?
      && (phase.Listening? ==> world.attempts(number).exchange.Refusal().None?)
      && (phase.Opening? ==> phase.reached <= world.attempts(number).exchange.Reach())
    }

    /** Events that were handed out have been delivered. */
    ghost predicate Marked()
      reads this, state
    {
      !phase.Over? ==> state.delivered == (phase.Listening? && polled > 0)
    }

    /** What becomes of the request, as long as nothing was delivered. */
    ghost function Fate(): Fate
      requires Valid() && !phase.Over?
      reads this
    {
      if phase.Pausing? then AfterPause(world, config, number, phase.delay, totalWaited)
      else Resolve(world, config, number, totalWaited)
    }

    /** How many more things can be awaited before an event or the end. */
    ghost function Ahead(): int
      reads this
    {
      9 * (Max(1, config.retries.maxAttempts) - number)
      + if phase.Opening? then 9 - phase.reached
        else if phase.Listening? then 2 else if phase.Pausing? then 1 else 0
    }

    constructor (world: World, config: Config, state: RequestExecutionState)
      ensures this.world == world && this.config == config && this.state == state
      ensures phase == Unstarted && log == [] && waits == [] && totalWaited == 0
    {
      this.world, this.config, this.state := world, config, state;
      number, polled, phase, totalWaited, log, waits := 0, 0, Unstarted, 0, [], [];
    }

    method Emit(r: AttemptReport)
      modifies this`log
      ensures log == old(log) + [r]
    {
      log := log + [r];
    }

    /** Starts attempt `n`; its milestones are awaited next. */
    method OpenAttempt(n: nat)
      modifies this`log, this`number, this`polled, this`phase, state`progress
      ensures number == n && polled == 0 && phase == Opening(0)
      ensures log == old(log) + [AttemptStarted(n)]
      ensures Starts(log) == Starts(old(log)) + [n] && Delays(log) == Delays(old(log))
    {
      OneReport(log, AttemptStarted(n));
      state.BeginAttempt();
      Emit(AttemptStarted(n));
      number, polled, phase := n, 0, Opening(0);
    }

    method ReportFailed(error: LlmError)
      modifies this`log
      ensures log == old(log) + FailedReports(error, number)
    {
      Emit(AttemptFailed(number, error));
      if error.Timeout? {
        Emit(AttemptTimedOut(number, error.timeoutStage, error.overallLimited));
        Regroup(old(log), [AttemptFailed(number, error)],
          [AttemptTimedOut(number, error.timeoutStage, error.overallLimited)]);
      } else {
        EmptySides([AttemptFailed(number, error)]);
      }
    }

    method ReportStop(reason: StopReason)
      modifies this`log
      ensures log == old(log) + StopReports(number, reason)
    {
      Emit(RetryDecided(number, None, Some(reason)));
      Emit(RetryExhausted(number, reason));
      Regroup(old(log), [RetryDecided(number, None, Some(reason))], [RetryExhausted(number, reason)]);
    }

    /** Decides on a retry, reports the decision and, for a retry, the wait. */
    method DecideNext(error: LlmError) returns (plan: Option<WaitPlan>)
      modifies this`log
      ensures plan == PlannedWait(world, config, state.delivered, error, number, totalWaited)
      ensures log == old(log) + RetryReports(world, config, state.delivered, error, number, totalWaited)
    {
      if number >= U32_MAX {
        ReportStop(AttemptsExhausted);
        return None;
      }
      match Decision(world, config, state.delivered, error, number) {
        case Fail =>
          ReportStop(StopReasonFor(error, state.delivered, number, config.retries,
            world.pauses(number).remainingAtStop, config.ReplaySafe()));
          plan := None;
        case Retry(reason) =>
          Emit(RetryDecided(number, Some(reason), None));
          plan := Wait(world, config, error, number, totalWaited);
          Emit(ScheduleReport(error, number, reason, plan));
          Regroup(old(log), [RetryDecided(number, Some(reason), None)], [ScheduleReport(error, number, reason, plan)]);
      }
    }

    method ReportAndDecide(error: LlmError) returns (plan: Option<WaitPlan>)
      modifies this`log
      ensures plan == PlannedWait(world, config, state.delivered, error, number, totalWaited)
      ensures log == old(log) + FailureReports(world, config, state.delivered, error, number, totalWaited)
      ensures Starts(log) == Starts(old(log)) && Delays(log) == Delays(old(log)) + Announced(plan)
    {
      FailureReportsCount(log, world, config, state.delivered, error, number, totalWaited);
      Regroup(log, FailedReports(error, number),
        RetryReports(world, config, state.delivered, error, number, totalWaited));
      ReportFailed(error);
      plan := DecideNext(error);
    }

    /** A failed attempt: the wait before the next one begins, or the request is over. */
    method RetryAfterFailure(error: LlmError) returns (failed: Option<LlmError>)
      requires Valid() && Delays(log) == waits
      modifies this`log, this`phase
      ensures Valid()
      ensures log == old(log) + FailureReports(world, config, state.delivered, error, number, totalWaited)
      ensures var plan := PlannedWait(world, config, state.delivered, error, number, totalWaited);
              && (plan.None? ==> failed == Some(error) && phase == Over)
              && (plan.Some? ==> failed == None && phase == Pausing(plan.value.effectiveDelay))
    {
      ghost var before := waits;
      var plan := ReportAndDecide(error);
      if plan.Some? {
        phase := Pausing(plan.value.effectiveDelay);
        failed := None;
      } else {
        EmptySides(before);
        phase := Over;
        failed := Some(error);
      }
    }

    /** The wait is over: the next attempt is started. */
    method StartNext()
      requires Valid() && phase.Pausing?
      modifies this, state`progress
      ensures Valid() && phase == Opening(0) && number == old(number) + 1
      ensures totalWaited == SatPlus(old(totalWaited), old(phase.delay)) && log == old(log) + [AttemptStarted(number)]
    {
      SatSumAppend(waits, phase.delay);
      totalWaited, waits := SatPlus(totalWaited, phase.delay), waits + [phase.delay];
      OpenAttempt(number + 1);
    }

    /** The wait before the next attempt has ended, or was cut short. */
    method Resume() returns (failed: Option<LlmError>)
      requires Valid() && phase.Pausing?
      modifies this, state`progress
      ensures Valid() && old(log) <= log && failed == world.pauses(old(number)).interrupted
      ensures failed.Some? ==> phase == Over && number == old(number) && totalWaited == old(totalWaited)
      ensures failed.None? ==>
                phase == Opening(0) && number == old(number) + 1
                  && totalWaited == SatPlus(old(totalWaited), old(phase.delay))
    {
      failed := world.pauses(number).interrupted;
      if failed.Some? {
        phase := Over;
      } else {
        StartNext();
      }
    }

    /** What one completed await does before anything was delivered: the fate is kept, or met. */
    ghost predicate Keeps(fate: Fate, item: Option<Result<AssistantEvent, LlmError>>)
      reads this
    {
      && Valid()
      && (item.None? ==> !phase.Over? && Fate() == fate && (phase.Listening? ==> polled == 0))
      && (item.Some? ==>
            && item.value == FirstItem(world, fate) && number == fate.attempt && totalWaited == fate.waited
            && phase == (if fate.Lost? then Over else Listening) && (fate.Winner? ==> polled == 1))
    }

    /** The same for an error that may end the request. */
    ghost predicate KeepsOrFails(fate: Fate, failed: Option<LlmError>)
      reads this
    {
      Keeps(fate, if failed.Some? then Some(Err(failed.value)) else None)
    }

    /** An attempt that fails before its first event keeps the fate of the request, or meets it. */
    method FailEarly(error: LlmError) returns (failed: Option<LlmError>)
      requires Valid() && (phase.Opening? || phase.Listening?) && !state.delivered
      requires EarlyError(world.attempts(number)) == Some(error)
      modifies this`log, this`phase
      ensures KeepsOrFails(old(Fate()), failed) && old(log) <= log
      ensures failed.Some? <==> phase.Over?
      ensures failed.None? ==> Ahead() < old(Ahead())
    {
      EarlyFailure(world, config, number, totalWaited);
      failed := RetryAfterFailure(error);
    }

    method Note(milestone: Milestone)
      modifies this`log
      ensures log == old(log) + [Reached(milestone)]
      ensures Starts(log) == Starts(old(log)) && Delays(log) == Delays(old(log))
    {
      OneReport(log, Reached(milestone));
      Emit(Reached(milestone));
    }

    /** Reports the next milestone of an attempt. */
    method ReachMilestone()
      requires Valid() && phase.Opening? && phase.reached < world.attempts(number).exchange.Reach()
      modifies this`log, this`phase
      ensures Valid() && phase == Opening(old(phase.reached) + 1)
      ensures log == old(log) + [Reached(world.attempts(number).exchange.MilestoneAt(old(phase.reached), number))]
      ensures Fate() == old(Fate()) && Ahead() < old(Ahead())
    {
      Note(world.attempts(number).exchange.MilestoneAt(phase.reached, number));
      phase := Opening(phase.reached + 1);
    }

    /** An attempt opens, or fails to. */
    method FinishOpening() returns (failed: Option<LlmError>)
      requires Valid() && phase.Opening? && !state.delivered
      modifies this`log, this`phase, this`polled
      ensures KeepsOrFails(old(Fate()), failed) && old(log) <= log
      ensures failed.Some? <==> phase.Over?
      ensures failed.None? ==> Ahead() < old(Ahead())
    {
      var refusal := world.attempts(number).exchange.Refusal();
      if refusal.Some? {
        failed := FailEarly(refusal.value);
      } else {
        phase, polled := Listening, 0;
        failed := None;
      }
    }

    /** The wait before the next attempt ends: the fate of the request is kept, or met. */
    method ResumeEarly() returns (failed: Option<LlmError>)
      requires Valid() && phase.Pausing?
      modifies this, state`progress
      ensures KeepsOrFails(old(Fate()), failed) && old(log) <= log
      ensures failed.Some? <==> phase.Over?
      ensures failed.None? ==> Ahead() < old(Ahead())
    {
      failed := Resume();
    }

    /** An attempt gets on with its response, or the wait before one ends. */
    method Proceed() returns (failed: Option<LlmError>)
      requires Valid() && (phase.Opening? || phase.Pausing?) && !state.delivered
      modifies this, state`progress
      ensures KeepsOrFails(old(Fate()), failed) && old(log) <= log
      ensures failed.Some? <==> phase.Over?
      ensures failed.None? ==> Ahead() < old(Ahead())
      ensures old(phase.Opening? && phase.reached < world.attempts(number).exchange.Reach()) ==>
                number == old(number) && phase == Opening(old(phase.reached) + 1)
    {
      if phase.Pausing? {
        failed := ResumeEarly();
      } else if phase.reached < world.attempts(number).exchange.Reach() {
        ReachMilestone();
        failed := None;
      } else {
        failed := FinishOpening();
      }
    }

    method Listen() returns (item: Option<Result<AssistantEvent, LlmError>>)
      requires Valid() && Marked() && phase.Listening?
      modifies this`log, this`phase, this`polled
      ensures Valid() && old(log) <= log
      ensures !state.delivered ==> Keeps(old(Fate()), item) && (item.None? ==> Ahead() < old(Ahead()))
      ensures state.delivered ==> item == Some(ItemAt(world, number, old(polled)))
      ensures state.delivered ==>
                phase == (if item.value.Err? then Over else Listening) && (item.value.Ok? ==> polled == old(polled) + 1)
    {
      var arrival := world.attempts(number).arrivals(polled);
      if arrival.Arrived? {
        polled := polled + 1;
        return Some(Ok(arrival.event));
      }
      var error := ArrivalError(arrival).value;
      if state.delivered {
        var failed := RetryAfterFailure(error);
        item := Some(Err(failed.value));
      } else {
        var failed := FailEarly(error);
        item := if failed.Some? then Some(Err(failed.value)) else None;
      }
    }

    /** Completes what is being awaited. */
    method Advance() returns (item: Option<Result<AssistantEvent, LlmError>>)
      requires Valid() && Marked() && !phase.Over?
      modifies this, state`progress
      ensures Valid() && old(log) <= log
      ensures !state.delivered ==> Keeps(old(Fate()), item) && (item.None? ==> Ahead() < old(Ahead()))
      ensures state.delivered ==>
                item == Some(ItemAt(world, number, old(polled))) && number == old(number)
                  && totalWaited == old(totalWaited)
      ensures state.delivered ==>
                phase == (if item.value.Err? then Over else Listening) && (item.value.Ok? ==> polled == old(polled) + 1)
    {
      if phase.Listening? {
        item := Listen();
      } else {
        var failed := Proceed();
        item := if failed.Some? then Some(Err(failed.value)) else None;
      }
    }

    /** Polls before anything was delivered: the request's fate is kept until it is met. */
    method PollEarly(patience: nat) returns (reply: Reply)
      requires Valid() && Marked() && !phase.Over? && !state.delivered
      modifies this, state`progress
      ensures old(log) <= log && !reply.Finished?
      ensures Keeps(old(Fate()), if reply.Handed? then Some(reply.item) else None)
      ensures reply.NotYet? ==> Ahead() + patience <= old(Ahead())
    {
      var left := patience;
      while left > 0
        invariant Keeps(old(Fate()), None) && old(log) <= log && Ahead() + patience - left <= old(Ahead())
      {
        var item := Advance();
        if item.Some? {
          return Handed(item.value);
        }
        left := left - 1;
      }
      reply := NotYet;
    }

    /**
     One poll, during which `patience` awaited things complete. Before the first delivery failures lead
     to other attempts; after it, the same attempt is streamed to its end.
     */
    method PollActive(patience: nat) returns (reply: Reply)
      requires Valid() && Marked()
      modifies this, state`progress
      ensures Valid() && old(log) <= log
      ensures reply.Finished? <==> old(phase.Over?)
      ensures reply.Finished? ==>
                phase == Over && number == old(number) && totalWaited == old(totalWaited) && log == old(log)
      ensures !reply.Finished? && !state.delivered ==>
                && Keeps(old(Fate()), if reply.Handed? then Some(reply.item) else None)
                && (reply.NotYet? ==> Ahead() + patience <= old(Ahead()))
      ensures !reply.Finished? && state.delivered ==>
                && (reply.NotYet? <==> patience == 0) && number == old(number) && totalWaited == old(totalWaited)
                && (reply.NotYet? ==> phase == Listening && polled == old(polled))
                && (reply.Handed? ==> reply.item == ItemAt(world, number, old(polled)))
                && (reply.Handed? ==> phase == (if reply.item.Err? then Over else Listening))
                && (reply.Handed? && reply.item.Ok? ==> polled == old(polled) + 1)
    {
      if phase.Over? {
        return Finished;
      }
      if !state.delivered {
        reply := PollEarly(patience);
      } else if patience > 0 {
        var item := Advance();
        reply := Handed(item.value);
      } else {
        reply := NotYet;
      }
    }

    /** The one report before the first attempt. */
    method Prepare()
      requires log == []
      modifies this`log
      ensures log == [IdempotencyPrepared(config.idempotency)] && Starts(log) == [] && Delays(log) == []
    {
      OneReport([], IdempotencyPrepared(config.idempotency));
      EmptySides([IdempotencyPrepared(config.idempotency)]);
      Emit(IdempotencyPrepared(config.idempotency));
    }

    /**
     Opens the first attempt that will open, unless the caller gives up after `patience` awaited things
     have completed: then the request stays on the way to its fate for ever.
     */
    method Start(patience: nat) returns (r: Option<Result<(), LlmError>>)
      requires phase.Unstarted? && log == [] && waits == [] && totalWaited == 0 && !state.delivered
      modifies this, state`progress
      ensures world.preflight.Some? ==> r == Some(Err(world.preflight.value)) && log == []
      ensures world.preflight.None? ==> Valid() && [IdempotencyPrepared(config.idempotency)] <= log
      ensures world.preflight.None? && r.None? ==>
                !phase.Over? && Fate() == Resolve(world, config, 1, 0) && patience < Longest(config)
      ensures world.preflight.None? && 1 <= patience <= world.attempts(1).exchange.Reach() ==> r.None?
      ensures r.Some? && r.value.Ok? ==>
                phase == Listening && polled == 0 && Fate() == Resolve(world, config, 1, 0)
      ensures world.preflight.None? && r.Some? && r.value.Err? ==>
                phase == Over && Resolve(world, config, 1, 0) == Lost(r.value.error, number, totalWaited)
    {
      if world.preflight.Some? {
        return Some(Err(world.preflight.value));
      }
      Prepare();
      OpenAttempt(1);
      var left := patience;
      while left > 0 && !phase.Listening?
        invariant Keeps(Resolve(world, config, 1, 0), None) && !state.delivered
        invariant [IdempotencyPrepared(config.idempotency)] <= log
        invariant Ahead() + patience - left <= Longest(config)
        invariant patience - left <= world.attempts(1).exchange.Reach() ==>
                    number == 1 && phase == Opening(patience - left)
      {
        var failed := Proceed();
        if failed.Some? {
          return Some(Err(failed.value));
        }
        left := left - 1;
      }
      r := if phase.Listening? then Some(Ok(())) else None;
    }
  }
}
