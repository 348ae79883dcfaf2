/** One logical request from start to drop: the public stream over the retry runner. */
module Request {
  import opened Prelude
  import opened Errors
  import opened Collecting
  import opened ExecutionState
  import opened PublicStream
  import opened Retry
  import opened Runner

  // ---------------------------------------------------------------- what callers should see

  function ItemOf(w: World, fate: Fate, i: nat): Item {
    if fate.Lost? then Err(fate.error) else ItemAt(w, fate.attempt, i)
  }

  /** The first `n` items of a request with that fate, cut after the item that closes the stream. */
  function Stream(w: World, fate: Fate, n: nat): seq<Item> {
    if n == 0 then []
    else
      var before := Stream(w, fate, n - 1);
      if Closed(before) then before else before + [ItemOf(w, fate, |before|)]
  }

  /** Every delivered event comes from the attempt that won, in that attempt's order, and none is skipped. */
  lemma {:induction false} OneAttemptDelivers(w: World, fate: Fate, n: nat)
    ensures |Stream(w, fate, n)| <= n && Orderly(Stream(w, fate, n))
    ensures forall i :: 0 <= i < |Stream(w, fate, n)| ==> Stream(w, fate, n)[i] == ItemOf(w, fate, i)
    ensures forall i :: 0 <= i < |Stream(w, fate, n)| && Stream(w, fate, n)[i].Ok? ==>
              fate.Winner? && w.attempts(fate.attempt).arrivals(i) == Arrived(Stream(w, fate, n)[i].value)
  {
    if n > 0 {
      OneAttemptDelivers(w, fate, n - 1);
    }
  }

  /** The winner is the first attempt that does not fail early; attempts and waits stay within their limits. */
  lemma {:induction false} FateIsBounded(w: World, c: Config, n: nat, waited: nat, limit: nat)
    requires Within(c.plan, limit) && waited <= limit
    ensures n <= Resolve(w, c, n, waited).attempt <= Max(n, c.retries.maxAttempts)
    ensures Resolve(w, c, n, waited).waited <= limit
    ensures forall m :: n <= m < Resolve(w, c, n, waited).attempt ==> EarlyError(w.attempts(m)).Some?
    ensures Resolve(w, c, n, waited).Winner? ==> EarlyError(w.attempts(Resolve(w, c, n, waited).attempt)).None?
    decreases c.retries.maxAttempts - n
  {
    var error := EarlyError(w.attempts(n));
    if error.Some? {
      EarlyFailure(w, c, n, waited);
      var plan := PlannedWait(w, c, false, error.value, n, waited);
      if plan.Some? && w.pauses(n).interrupted.None? {
        FateIsBounded(w, c, n + 1, SatPlus(waited, plan.value.effectiveDelay), limit);
      }
    }
  }

  lemma {:induction false} FateNotBefore(w: World, c: Config, n: nat, waited: nat)
    requires waited <= DURATION_MAX
    ensures Resolve(w, c, n, waited).attempt >= n && Resolve(w, c, n, waited).waited >= waited
    decreases c.retries.maxAttempts - n
  {
    var error := EarlyError(w.attempts(n));
    if error.Some? {
      EarlyFailure(w, c, n, waited);
      var plan := PlannedWait(w, c, false, error.value, n, waited);
      if plan.Some? && w.pauses(n).interrupted.None? {
        FateNotBefore(w, c, n + 1, SatPlus(waited, plan.value.effectiveDelay));
      }
    }
  }

  // ---------------------------------------------------------------- one poll

  /** How far the runner has come: still on the way to its fate, or there. */
  ghost predicate OnCourse(runner: RequestRunner, fate: Fate, items: seq<Item>)
    reads runner
  {
    && runner.Valid()
    && (items == [] && !runner.phase.Over? ==> runner.Fate() == fate)
    && (items != [] ==> runner.number == fate.attempt && runner.totalWaited == fate.waited)
    && (items != [] && !Closed(items) ==> runner.phase == Listening && runner.polled == |items| && fate.Winner?)
  }

  /** The public stream and its runner agree on how far the request has come. */
  ghost predicate Driving(stream: AssistantStream, runner: RequestRunner, fate: Fate)
    reads stream, runner, stream.state
  {
    && stream.Valid() && stream.state == runner.state
    && OnCourse(runner, fate, stream.items)
    && (!stream.terminal ==> !runner.phase.Over? && runner.Marked())
  }

  /** What the runner replies is what the request's fate has next, or nothing yet. */
  method Ask(runner: RequestRunner, patience: nat, ghost fate: Fate, ghost items: seq<Item>) returns (inner: Inner)
    requires OnCourse(runner, fate, items) && !Closed(items) && !runner.phase.Over? && runner.Marked()
    requires runner.state.delivered == (items != [])
    modifies runner, runner.state`progress
    ensures old(runner.log) <= runner.log
    ensures inner == InnerPending || inner == InnerItem(ItemOf(runner.world, fate, |items|))
    ensures inner == InnerPending ==>
              && OnCourse(runner, fate, items) && !runner.phase.Over? && runner.Marked()
                && patience < Longest(runner.config)
    ensures inner.InnerItem? ==>
              && runner.Valid() && runner.number == fate.attempt && runner.totalWaited == fate.waited
              && (inner.item.Ok? ==> runner.phase == Listening && runner.polled == |items| + 1 && fate.Winner?)
  {
    var reply := runner.PollActive(patience);
    inner := if reply.NotYet? then InnerPending else if reply.Finished? then InnerEnd else InnerItem(reply.item);
  }

  /**
   One poll of the public stream whose inner stream is the runner; `patience` awaited things complete
   in the meantime. It answers, at the latest, when everything that may lie ahead completes.
   */
  method Poll(stream: AssistantStream, runner: RequestRunner, patience: nat, ghost fate: Fate) returns (r: Public)
    requires Driving(stream, runner, fate)
    modifies stream, runner, runner.state
    ensures Driving(stream, runner, fate)
    ensures old(runner.log) <= runner.log && old(stream.log) <= stream.log
    ensures r.End? <==> Closed(old(stream.items))
    ensures r.End? ==> runner.log == old(runner.log) && stream.log == old(stream.log)
    ensures stream.items == old(stream.items) + if r.Yield? then [r.item] else []
    ensures r.Yield? ==> r.item == ItemOf(runner.world, fate, |old(stream.items)|)
    ensures r.Pending? ==> patience < Longest(runner.config)
  {
    EmptySides(stream.items);
    if stream.terminal {
      r := stream.PollNext(InnerPending);
    } else {
      AllDelivered(stream.items);
      var inner := Ask(runner, patience, fate, stream.items);
      r := stream.PollNext(inner);
    }
  }

  // ---------------------------------------------------------------- what an observer is told

  /** Reports about attempts and about the request, in the order in which one observer gets them. */
  datatype Observed = OfAttempt(attempt: AttemptReport) | OfRequest(request: Report)

  function AttemptsIn(reports: seq<Observed>): seq<AttemptReport> {
    if reports == [] then []
    else
      var last := reports[|reports| - 1];
      AttemptsIn(reports[..|reports| - 1]) + if last.OfAttempt? then [last.attempt] else []
  }

  function RequestsIn(reports: seq<Observed>): seq<Report> {
    if reports == [] then []
    else
      var last := reports[|reports| - 1];
      RequestsIn(reports[..|reports| - 1]) + if last.OfRequest? then [last.request] else []
  }

  lemma OneObserved(reports: seq<Observed>, o: Observed)
    ensures AttemptsIn(reports + [o]) == AttemptsIn(reports) + if o.OfAttempt? then [o.attempt] else []
    ensures RequestsIn(reports + [o]) == RequestsIn(reports) + if o.OfRequest? then [o.request] else []
  {
    TakeDrop(reports, [o]);
  }

  function TellAttempts(reports: seq<Observed>, news: seq<AttemptReport>): seq<Observed> {
    if news == [] then reports else TellAttempts(reports, news[..|news| - 1]) + [OfAttempt(news[|news| - 1])]
  }

  function TellRequests(reports: seq<Observed>, news: seq<Report>): seq<Observed> {
    if news == [] then reports else TellRequests(reports, news[..|news| - 1]) + [OfRequest(news[|news| - 1])]
  }

  lemma {:induction false} AttemptsTold(reports: seq<Observed>, news: seq<AttemptReport>)
    ensures reports <= TellAttempts(reports, news)
    ensures AttemptsIn(TellAttempts(reports, news)) == AttemptsIn(reports) + news
    ensures RequestsIn(TellAttempts(reports, news)) == RequestsIn(reports)
  {
    if news == [] {
      EmptySides(AttemptsIn(reports));
    } else {
      var init, last := news[..|news| - 1], news[|news| - 1];
      AttemptsTold(reports, init);
      OneObserved(TellAttempts(reports, init), OfAttempt(last));
      SplitLast(news);
      Regroup(AttemptsIn(reports), init, [last]);
      EmptySides(RequestsIn(reports));
    }
  }

  lemma {:induction false} RequestsTold(reports: seq<Observed>, news: seq<Report>)
    ensures AttemptsIn(TellRequests(reports, news)) == AttemptsIn(reports)
    ensures reports <= TellRequests(reports, news)
    ensures RequestsIn(TellRequests(reports, news)) == RequestsIn(reports) + news
    ensures news != [] ==>
              TellRequests(reports, news) != []
              && TellRequests(reports, news)[|TellRequests(reports, news)| - 1] == OfRequest(news[|news| - 1])
  {
    if news == [] {
      EmptySides(RequestsIn(reports));
    } else {
      var init, last := news[..|news| - 1], news[|news| - 1];
      RequestsTold(reports, init);
      OneObserved(TellRequests(reports, init), OfRequest(last));
      SplitLast(news);
      Regroup(RequestsIn(reports), init, [last]);
      EmptySides(AttemptsIn(reports));
    }
  }

  predicate EndsWith(reports: seq<Observed>, r: Report) { reports != [] && reports[|reports| - 1] == OfRequest(r) }

  /** Within one poll the runner reports first, and the stream after it. */
  function Tell(
    reports: seq<Observed>, attempts: seq<AttemptReport>, known: nat, log: seq<Report>, told: nat): seq<Observed>
    requires known <= |attempts| && told <= |log|
  {
    TellRequests(TellAttempts(reports, attempts[known..]), log[told..])
  }

  lemma Told(reports: seq<Observed>, attempts: seq<AttemptReport>, known: nat, log: seq<Report>, told: nat)
    requires known <= |attempts| && told <= |log|
    requires AttemptsIn(reports) == attempts[..known] && RequestsIn(reports) == log[..told]
    ensures var all := Tell(reports, attempts, known, log, told);
            && AttemptsIn(all) == attempts && RequestsIn(all) == log && reports <= all
            && (told < |log| ==> EndsWith(all, log[|log| - 1]))
            && (known == |attempts| && told == |log| ==> all == reports)
  {
    AttemptsTold(reports, attempts[known..]);
    RequestsTold(TellAttempts(reports, attempts[known..]), log[told..]);
    Halves(attempts, known);
    Halves(log, told);
  }

  // ---------------------------------------------------------------- the request

  /** What keeps a request from having a first attempt. */
  function Refusal(w: World): Option<LlmError> {
    if w.planning.Some? then w.planning else if w.preparation.Some? then w.preparation else w.preflight
  }

  /** What is reported before the runner takes over. */
  function Preamble(w: World): seq<Report> {
    [RequestStarted] + if w.planning.None? then [ValidationCompleted] else []
  }

  function Overture(w: World): seq<Observed> { TellRequests([], Preamble(w)) }

  lemma OvertureTold(w: World)
    ensures AttemptsIn(Overture(w)) == [] && RequestsIn(Overture(w)) == Preamble(w) && Endings(Preamble(w)) == []
  {
    RequestsTold([], Preamble(w));
    EmptySides(Preamble(w));
    EndingsAppend([], RequestStarted);
    EmptySides([RequestStarted]);
    if w.planning.None? { EndingsAppend([RequestStarted], ValidationCompleted); }
  }

  /**
   Everything observable of one request. Whether it started is unknown if the caller gave up before;
   `last` is the attempt it was in when it ended.
   */
  datatype Transcript = Transcript(
    started: Option<Result<(), LlmError>>, polls: seq<Public>,
    attempts: seq<AttemptReport>, reports: seq<Observed>, last: nat, waited: nat)
  {
    predicate Failed() { started.Some? && started.value.Err? }

    predicate Opened() { started.Some? && started.value.Ok? }
  }

  /** What the request is seen to come to. */
  function Outcome(t: Transcript): Report {
    if t.Failed() then ErrorReport(t.started.value.error, false) else Verdict(Yielded(t.polls))
  }

  /** One report ends the request: the truth about what the caller saw, and the last thing an observer is told. */
  predicate EndsOnce(t: Transcript) {
    Endings(RequestsIn(t.reports)) == [Outcome(t)] && EndsWith(t.reports, Outcome(t))
  }

  /**
   The attempts of a request: numbered from one without gaps, up to the one its fate names once that was
   met. The time waited is the sum of the announced delays that led to another attempt.
   */
  predicate AttemptsFit(t: Transcript, fate: Fate) {
    && Starts(t.attempts) == Upto(t.last) && 1 <= t.last <= fate.attempt && t.waited <= fate.waited
    && t.last - 1 <= |Delays(t.attempts)| <= t.last && t.waited == SatSum(Delays(t.attempts)[..t.last - 1])
    && (t.Failed() || Yielded(t.polls) != [] ==> t.last == fate.attempt && t.waited == fate.waited)
  }

  /** Attempts and waits of a request stay within what its policies allow. */
  lemma RequestStaysBounded(w: World, c: Config, policy: WaitPolicy, t: Transcript)
    requires AttemptsFit(t, Resolve(w, c, 1, 0)) && c.plan == PlannerFor(policy)
    ensures t.last <= Max(1, c.retries.maxAttempts) && t.waited <= policy.maxTotalWait
  {
    PlannerStaysWithin(policy);
    FateIsBounded(w, c, 1, 0, policy.maxTotalWait);
  }

  /** The next answer extends the record of polls. */
  lemma Recorded(polls: seq<Public>, r: Public)
    requires Fused(polls) && (r.End? <==> Closed(Yielded(polls)))
    ensures Fused(polls + [r]) && Yielded(polls + [r]) == Yielded(polls) + if r.Yield? then [r.item] else []
  {
    YieldedAppend(polls, r);
    FusedAppend(polls, r);
    EmptySides(Yielded(polls));
  }

  /** `items` are the first ones of the request's stream. */
  ghost predicate Prefix(items: seq<Item>, w: World, fate: Fate) { items == Stream(w, fate, |items|) }

  lemma PrefixNext(items: seq<Item>, w: World, fate: Fate, r: Public)
    requires Prefix(items, w, fate) && (r.End? <==> Closed(items)) && (r.Yield? ==> r.item == ItemOf(w, fate, |items|))
    ensures Prefix(items + if r.Yield? then [r.item] else [], w, fate)
  {
    EmptySides(items);
  }

  /** What has been recorded of a request under way. */
  datatype Record = Record(polls: seq<Public>, reports: seq<Observed>)

  /**
   The polls yielded the first items of the request; the reports are those of runner and stream, and
   end with the verdict.
   */
  ghost predicate Kept(
    k: Record, items: seq<Item>, attempts: seq<AttemptReport>, log: seq<Report>, ended: bool, w: World, fate: Fate)
  {
    && Fused(k.polls) && Yielded(k.polls) == items && Prefix(items, w, fate)
    && AttemptsIn(k.reports) == attempts && RequestsIn(k.reports) == log
    && Endings(log) == (if ended then [Verdict(items)] else [])
    && (ended ==> LastReport(log) == Some(Verdict(items)) && EndsWith(k.reports, Verdict(items)))
  }

  ghost predicate OnRecord(k: Record, stream: AssistantStream, runner: RequestRunner, fate: Fate)
    reads stream, runner, stream.state
  {
    && Driving(stream, runner, fate)
    && Kept(k, stream.items, runner.log, stream.log, stream.observed && stream.terminal, runner.world, fate)
  }

  lemma LogGrew(before: seq<Report>, after: seq<Report>, r: Report)
    requires before <= after && Endings(before) == [] && Endings(after) == [r]
    ensures |before| < |after|
  {
    assert |before| == |after| ==> before == after;
  }

  /** What happened in one poll: its answer, and what the runner and then the stream reported. */
  datatype News = News(answer: Public, attempts: seq<AttemptReport>, log: seq<Report>)

  ghost predicate Plausible(
    items: seq<Item>, attempts: seq<AttemptReport>, log: seq<Report>, n: News, w: World, fate: Fate)
  {
    && (n.answer.End? <==> Closed(items))
    && (n.answer.Yield? ==> n.answer.item == ItemOf(w, fate, |items|))
    && attempts <= n.attempts && log <= n.log
    && (n.answer.End? ==> n.attempts == attempts && n.log == log)
  }

  function Extend(k: Record, known: nat, told: nat, n: News): Record
    requires known <= |n.attempts| && told <= |n.log|
  {
    Record(k.polls + [n.answer], Tell(k.reports, n.attempts, known, n.log, told))
  }

  lemma KeptNext(
    k: Record, items: seq<Item>, attempts: seq<AttemptReport>, log: seq<Report>, observed: bool, w: World, fate: Fate,
    n: News, items': seq<Item>)
    requires Kept(k, items, attempts, log, observed && Closed(items), w, fate)
             && Plausible(items, attempts, log, n, w, fate)
    requires items' == items + if n.answer.Yield? then [n.answer.item] else []
    requires Endings(n.log) == (if observed && Closed(items') then [Verdict(items')] else [])
    requires observed && Closed(items') ==> LastReport(n.log) == Some(Verdict(items'))
    ensures Kept(Extend(k, |attempts|, |log|, n), items', n.attempts, n.log, observed && Closed(items'), w, fate)
    ensures k.reports <= Extend(k, |attempts|, |log|, n).reports
  {
    Told(k.reports, n.attempts, |attempts|, n.log, |log|);
    if observed && Closed(items') { VerdictTold(k, items, log, n, items'); }
    Recorded(k.polls, n.answer);
    PrefixNext(items, w, fate, n.answer);
  }

  /** Once the stream has closed, the verdict is the last thing told. */
  lemma VerdictTold(k: Record, items: seq<Item>, log: seq<Report>, n: News, items': seq<Item>)
    requires RequestsIn(k.reports) == log <= n.log && (n.answer.End? <==> Closed(items))
    requires items' == items + if n.answer.Yield? then [n.answer.item] else []
    requires Closed(items') && Endings(n.log) == [Verdict(items')] && LastReport(n.log) == Some(Verdict(items'))
    requires if Closed(items) then n.log == log else Endings(log) == []
    ensures |log| < |n.log| || (Closed(items) && items' == items && n.log == log)
  {
    EmptySides(items);
    if !Closed(items) { LogGrew(log, n.log, Verdict(items')); }
  }

  /** The answer to a poll, and what has been yielded before and after it. */
  predicate Answers(r: Public, before: seq<Item>, after: seq<Item>) {
    && (r.End? <==> Closed(before))
    && after == before + if r.Yield? then [r.item] else []
  }

  method PollOnce(
    stream: AssistantStream, runner: RequestRunner, patience: nat, k: Record, ghost fate: Fate)
    returns (next: Record)
    requires OnRecord(k, stream, runner, fate)
    modifies stream, runner, runner.state
    ensures OnRecord(next, stream, runner, fate) && |next.polls| == |k.polls| + 1 && next.polls[..|k.polls|] == k.polls
    ensures k.reports <= next.reports && old(runner.log) <= runner.log
    ensures Answers(next.polls[|k.polls|], old(stream.items), stream.items)
    ensures next.polls[|k.polls|].Pending? ==> patience < Longest(runner.config)
  {
    var known, told := |runner.log|, |stream.log|;
    ghost var items, attempts, log := stream.items, runner.log, stream.log;
    var r := Poll(stream, runner, patience, fate);
    var n := News(r, runner.log, stream.log);
    KeptNext(k, items, attempts, log, stream.observed, runner.world, fate, n, stream.items);
    next := Extend(k, known, told, n);
  }

  /** A poll is pending only if less completed during it than may lie ahead. */
  predicate Prompt(polls: seq<Public>, patience: seq<nat>, c: Config) {
    |polls| <= |patience| && forall j :: 0 <= j < |polls| ==> polls[j].Pending? ==> patience[j] < Longest(c)
  }

  lemma PromptNext(polls: seq<Public>, next: seq<Public>, patience: seq<nat>, c: Config)
    requires Prompt(polls, patience, c) && |polls| < |patience| && |next| == |polls| + 1 && next[..|polls|] == polls
    requires next[|polls|].Pending? ==> patience[|polls|] < Longest(c)
    ensures Prompt(next, patience, c)
  {
    forall j | 0 <= j < |polls| ensures next[j] == polls[j] {
      assert next[..|polls|][j] == polls[j];
    }
  }

  /** Polls a started request once per entry of `patience`. */
  method PollAll(
    stream: AssistantStream, runner: RequestRunner, patience: seq<nat>, start: Record, ghost fate: Fate)
    returns (k: Record)
    requires OnRecord(start, stream, runner, fate) && start.polls == []
    modifies stream, runner, runner.state
    ensures OnRecord(k, stream, runner, fate) && |k.polls| == |patience|
    ensures Prompt(k.polls, patience, runner.config) && start.reports <= k.reports && old(runner.log) <= runner.log
    ensures Fused(k.polls) && Prefix(Yielded(k.polls), runner.world, fate)
  {
    k := start;
    for i := 0 to |patience|
      invariant OnRecord(k, stream, runner, fate) && |k.polls| == i && Prompt(k.polls, patience, runner.config)
      invariant start.reports <= k.reports && old(runner.log) <= runner.log
    {
      var next := PollOnce(stream, runner, patience[i], k, fate);
      PromptNext(k.polls, next.polls, patience, runner.config);
      k := next;
    }
  }

  /** The attempts of a runner that has started. */
  lemma RunnerFits(runner: RequestRunner, fate: Fate, t: Transcript)
    requires runner.Valid() && t.attempts == runner.log && t.last == runner.number && t.waited == runner.totalWaited
    requires runner.number <= fate.attempt && runner.totalWaited <= fate.waited
    requires t.Failed() || Yielded(t.polls) != [] ==>
               runner.number == fate.attempt && runner.totalWaited == fate.waited
    ensures AttemptsFit(t, fate)
  {
    var waits, delays := runner.waits, Delays(runner.log);
    assert delays[..|waits|] == waits;
  }

  lemma SatSumBounded(waits: seq<nat>)
    ensures SatSum(waits) <= DURATION_MAX
  {
  }

  lemma CourseNotBefore(runner: RequestRunner, fate: Fate, items: seq<Item>)
    requires OnCourse(runner, fate, items) && (items == [] ==> !runner.phase.Over?)
    ensures runner.number <= fate.attempt && runner.totalWaited <= fate.waited
  {
    if items == [] {
      SatSumBounded(runner.waits);
      if runner.phase.Pausing? {
        var waited := SatPlus(runner.totalWaited, runner.phase.delay);
        FateNotBefore(runner.world, runner.config, runner.number + 1, waited);
      } else {
        FateNotBefore(runner.world, runner.config, runner.number, runner.totalWaited);
      }
    }
  }

  /** How a request sets out: what has become of its runner within `patience` awaited things. */
  ghost predicate Begun(runner: RequestRunner, started: Option<Result<(), LlmError>>, patience: nat, fate: Fate)
    reads runner
  {
    && runner.Valid() && [IdempotencyPrepared(runner.config.idempotency)] <= runner.log
    && (1 <= patience <= runner.world.attempts(1).exchange.Reach() ==> started.None?)
    && (started.None? ==> !runner.phase.Over? && runner.Fate() == fate && patience < Longest(runner.config))
    && (started.Some? && started.value.Ok? ==>
          runner.phase == Listening && runner.polled == 0 && runner.Fate() == fate)
    && (started.Some? && started.value.Err? ==>
          runner.phase == Over && fate == Lost(started.value.error, runner.number, runner.totalWaited))
  }

  method Begin(w: World, c: Config, patience: nat)
    returns (runner: RequestRunner, started: Option<Result<(), LlmError>>)
    ensures fresh(runner) && fresh(runner.state) && runner.world == w && runner.config == c
    ensures !runner.state.terminal && !runner.state.delivered
    ensures Refusal(w).Some? ==> started == Some(Err(Refusal(w).value)) && runner.log == []
    ensures Refusal(w).None? ==> Begun(runner, started, patience, Resolve(w, c, 1, 0))
  {
    var state := new RequestExecutionState();
    runner := new RequestRunner(w, c, state);
    if w.planning.Some? {
      started := Some(Err(w.planning.value));
    } else if w.preparation.Some? {
      started := Some(Err(w.preparation.value));
    } else {
      started := runner.Start(patience);
    }
  }

  /** What a whole request against world `w` comes to. */
  ghost predicate Faithful(w: World, c: Config, patience: seq<nat>, t: Transcript) {
    var fate := Resolve(w, c, 1, 0);
    && AttemptsFit(t, fate) && [IdempotencyPrepared(c.idempotency)] <= t.attempts
    && (t.Failed() ==> fate.Lost? && fate.error == t.started.value.error)
    && (t.Failed() || t.started.None? ==> t.polls == [])
    && (t.Opened() ==> |t.polls| == |patience| && Fused(t.polls) && Prefix(Yielded(t.polls), w, fate))
    && Prompt(t.polls, patience, c)
  }

  /**
   What an observer is told is what happened, from the start. It ends once, unless the caller gave up
   before there was a stream: then nothing says so. Without an observer nothing is told.
   */
  ghost predicate Observes(w: World, t: Transcript, observed: bool) {
    if observed then
      && Overture(w) <= t.reports && AttemptsIn(t.reports) == t.attempts
      && (if t.started.Some? then EndsOnce(t) else RequestsIn(t.reports) == Preamble(w))
    else t.reports == []
  }

  /** What is told of a request without a stream: the preamble, its attempts, and the error if there is one. */
  function ToldUnstreamed(w: World, error: Option<LlmError>, attempts: seq<AttemptReport>): seq<Observed> {
    var all := TellAttempts(Overture(w), attempts);
    if error.Some? then all + [OfRequest(ErrorReport(error.value, false))] else all
  }

  lemma UnstreamedTold(w: World, error: Option<LlmError>, attempts: seq<AttemptReport>)
    ensures var all := ToldUnstreamed(w, error, attempts);
            && Overture(w) <= all && AttemptsIn(all) == attempts
            && (error.None? ==> RequestsIn(all) == Preamble(w))
            && (error.Some? ==>
                  && Endings(RequestsIn(all)) == [ErrorReport(error.value, false)]
                  && EndsWith(all, ErrorReport(error.value, false)))
  {
    OvertureTold(w);
    AttemptsTold(Overture(w), attempts);
    EmptySides(attempts);
    if error.Some? {
      var end := ErrorReport(error.value, false);
      OneObserved(TellAttempts(Overture(w), attempts), OfRequest(end));
      EndingsAppend(Preamble(w), end);
      EmptySides([end]);
    }
  }

  /** A request that fails, or is given up, before it has a stream. */
  method Unstreamed(w: World, error: Option<LlmError>, runner: RequestRunner, observed: bool) returns (t: Transcript)
    ensures t.started == (if error.Some? then Some(Err(error.value)) else None) && t.polls == []
    ensures t.attempts == runner.log && t.last == runner.number && t.waited == runner.totalWaited
    ensures Observes(w, t, observed)
  {
    UnstreamedTold(w, error, runner.log);
    var reports := if observed then ToldUnstreamed(w, error, runner.log) else [];
    var started := if error.Some? then Some(Err(error.value)) else None;
    t := Transcript(started, [], runner.log, reports, runner.number, runner.totalWaited);
  }

  /** A request that does not get a stream fits its fate. */
  lemma UnstreamedFits(
    runner: RequestRunner, started: Option<Result<(), LlmError>>, patience: nat, fate: Fate, t: Transcript)
    requires Begun(runner, started, patience, fate) && t.started == started && (started.Some? ==> started.value.Err?)
    requires t.attempts == runner.log && t.last == runner.number && t.waited == runner.totalWaited && t.polls == []
    ensures AttemptsFit(t, fate)
  {
    if started.None? { CourseNotBefore(runner, fate, []); }
    RunnerFits(runner, fate, t);
  }

  /** Dropping adds the verdict, unless it has been told already. */
  lemma LastWord(
    reports: seq<Observed>, attempts: seq<AttemptReport>, before: seq<Report>, after: seq<Report>,
    was: bool, verdict: Report)
    requires AttemptsIn(reports) == attempts && RequestsIn(reports) == before <= after
    requires Endings(after) == [verdict] && LastReport(after) == Some(verdict)
    requires if was then after == before && EndsWith(reports, verdict) else Endings(before) == []
    ensures var all := Tell(reports, attempts, |attempts|, after, |before|);
            AttemptsIn(all) == attempts && RequestsIn(all) == after && EndsWith(all, verdict) && reports <= all
  {
    Told(reports, attempts, |attempts|, after, |before|);
    if !was { LogGrew(before, after, verdict); }
  }

  method Conclude(stream: AssistantStream, runner: RequestRunner, k: Record, ghost fate: Fate) returns (t: Transcript)
    requires OnRecord(k, stream, runner, fate) && (stream.observed ==> Overture(runner.world) <= k.reports)
    modifies stream, stream.state
    ensures t.Opened() && t.polls == k.polls && t.attempts == runner.log && AttemptsFit(t, fate)
    ensures Observes(runner.world, t, stream.observed)
  {
    CourseNotBefore(runner, fate, stream.items);
    var told := |stream.log|;
    ghost var before, was := stream.log, stream.terminal;
    stream.Drop();
    if stream.observed { LastWord(k.reports, runner.log, before, stream.log, was, Verdict(stream.items)); }
    var reports := if stream.observed then Tell(k.reports, runner.log, |runner.log|, stream.log, told) else [];
    t := Transcript(Some(Ok(())), k.polls, runner.log, reports, runner.number, runner.totalWaited);
    RunnerFits(runner, fate, t);
  }

  /** A started request gets its public stream. */
  method Attach(runner: RequestRunner, observed: bool, ghost fate: Fate) returns (stream: AssistantStream, k: Record)
    requires runner.Valid() && runner.phase == Listening && runner.polled == 0 && runner.Fate() == fate
    requires !runner.state.terminal && !runner.state.delivered
    ensures fresh(stream) && stream.observed == observed && stream.items == [] && k.polls == []
    ensures OnRecord(k, stream, runner, fate) && (observed ==> Overture(runner.world) <= k.reports)
  {
    OvertureTold(runner.world);
    stream := new AssistantStream(observed, runner.state, Preamble(runner.world));
    var overture := if observed then Overture(runner.world) else [];
    AttemptsTold(overture, runner.log);
    EmptySides(runner.log);
    k := Record([], TellAttempts(overture, runner.log));
  }

  /** Polls a public stream, then drops it. */
  method PollAndDrop(
    stream: AssistantStream, runner: RequestRunner, patience: seq<nat>, start: Record, ghost fate: Fate)
    returns (t: Transcript)
    requires OnRecord(start, stream, runner, fate) && start.polls == []
    requires stream.observed ==> Overture(runner.world) <= start.reports
    modifies stream, runner, runner.state
    ensures t.Opened() && AttemptsFit(t, fate) && |t.polls| == |patience|
    ensures Observes(runner.world, t, stream.observed) && old(runner.log) <= t.attempts
    ensures Fused(t.polls) && Prefix(Yielded(t.polls), runner.world, fate) && Prompt(t.polls, patience, runner.config)
  {
    var k := PollAll(stream, runner, patience, start, fate);
    t := Conclude(stream, runner, k, fate);
  }

  /** Polls a started request, then drops its stream. */
  method Streamed(runner: RequestRunner, patience: seq<nat>, observed: bool, ghost fate: Fate) returns (t: Transcript)
    requires runner.Valid() && runner.phase == Listening && runner.polled == 0 && runner.Fate() == fate
    requires !runner.state.terminal && !runner.state.delivered
    modifies runner, runner.state
    ensures t.Opened() && AttemptsFit(t, fate) && |t.polls| == |patience|
    ensures Observes(runner.world, t, observed) && old(runner.log) <= t.attempts
    ensures Fused(t.polls) && Prefix(Yielded(t.polls), runner.world, fate) && Prompt(t.polls, patience, runner.config)
  {
    var stream, start := Attach(runner, observed, fate);
    t := PollAndDrop(stream, runner, patience, start, fate);
  }

  /**
   A whole request against any world: what the caller sees is a prefix of the stream of the one attempt
   that won, or the final error. Whatever completes before the stream is there, or during a poll, only
   decides how soon there is an answer. A caller may give up while the request is being started.
   */
  method RunRequest(w: World, c: Config, setOut: nat, patience: seq<nat>, observed: bool) returns (t: Transcript)
    ensures Refusal(w).Some? ==> t.started == Some(Err(Refusal(w).value)) && t.attempts == [] && t.polls == []
    ensures Refusal(w).None? ==> Faithful(w, c, patience, t)
    ensures t.started.None? ==> Refusal(w).None? && setOut < Longest(c)
    ensures Refusal(w).None? && 1 <= setOut <= w.attempts(1).exchange.Reach() ==> t.started.None?
    ensures Observes(w, t, observed)
  {
    var runner, started := Begin(w, c, setOut);
    if started.Some? && started.value.Ok? {
      t := Streamed(runner, patience, observed, Resolve(w, c, 1, 0));
    } else {
      var error := if started.Some? then Some(started.value.error) else None;
      if started.Some? {
        var _ := runner.state.MarkTerminal();
      }
      t := Unstreamed(w, error, runner, observed);
      if Refusal(w).None? { UnstreamedFits(runner, started, setOut, Resolve(w, c, 1, 0), t); }
    }
  }

  /** The end of a request is reported if and only if the caller did not give up before there was a stream. */
  lemma EndIsReported(w: World, t: Transcript)
    requires Observes(w, t, true)
    ensures Endings(RequestsIn(t.reports)) == (if t.started.Some? then [Outcome(t)] else [])
  {
    OvertureTold(w);
  }

  /** A caller that gives up while its first attempt is executed leaves an observer waiting for an end. */
  method AbandonedRequest(w: World, c: Config, setOut: nat, patience: seq<nat>) returns (t: Transcript)
    requires Refusal(w).None? && 1 <= setOut <= w.attempts(1).exchange.Reach()
    ensures t.started.None? && Endings(RequestsIn(t.reports)) == []
  {
    t := RunRequest(w, c, setOut, patience, true);
    EndIsReported(w, t);
  }

  /** Collecting a public stream that has ended: "after done" and "truncated" are never the collector's own verdict. */
  method CollectEnded(items: seq<Item>) returns (r: Result<AssistantMessage, CollectError>)
    requires Orderly(items) && Closed(items)
    ensures r.Err? ==> r.error.Violation? || (r.error.StreamFailed? && items[|items| - 1] == Err(r.error.error))
    ensures r.Ok? ==> IsDone(items[|items| - 1]) && r.value == MessageOf(EventsOf(items))
  {
    r := Collect(items);
    VerdictIsJustified(items, 0);
    LastEvent(items, |items| - 1);
  }
}
