/** From bytes to message: one request, decoded, driven, retried, streamed and collected. */
module Pipeline {
  import opened Prelude
  import opened Errors
  import opened Events
  import opened Collecting
  import opened PublicStream
  import opened Request
  import opened ResponseStream
  import opened Retry
  import opened Runner
  import opened SseDecoding
  import S = Sse

  // ---------------------------------------------------------------- a service that sends bytes

  /** Waiting for the event after that many is cut short, by a timeout or by the caller. */
  datatype Cut = Cut(after: nat, error: LlmError)

  /** What an attempt is up against: how it opens, what its body does, and what reads it. */
  datatype Response<!M> = Response(
    exchange: Exchange, sse: S.Config, answers: seq<UpstreamPoll>, machine: M, cut: Option<Cut>)

  datatype Service<!M> = Service(
    planning: Option<LlmError>, preparation: Option<LlmError>, preflight: Option<LlmError>,
    protocol: Machine<M, AssistantEvent>, responses: nat -> Response<M>, pauses: nat -> Pause)

  /** What reading the body of a response puts out. */
  function Heard<M>(protocol: Machine<M, AssistantEvent>, r: Response<M>): seq<Item> {
    Outputs(r.sse, r.answers, protocol, r.machine)
  }

  function ArrivalAt(out: seq<Item>, cut: Option<Cut>, i: nat): Arrival {
    if cut.Some? && cut.value.after <= i then Arrival.Broke(cut.value.error)
    else if i >= |out| then Ended
    else if out[i].Ok? then Arrived(out[i].value)
    else Arrival.Broke(out[i].error)
  }

  function AttemptOf<M>(protocol: Machine<M, AssistantEvent>, r: Response<M>): Attempt {
    var out := Heard(protocol, r);
    Attempt(r.exchange, (i: nat) => ArrivalAt(out, r.cut, i))
  }

  function WorldOf<M>(s: Service<M>): World {
    World(s.planning, s.preparation, s.preflight, (n: nat) => AttemptOf(s.protocol, s.responses(n)), s.pauses)
  }

  // ---------------------------------------------------------------- what a caller is given to read

  function ShownAt(out: seq<Item>, cut: Option<Cut>, i: nat): Item {
    if cut.Some? && cut.value.after <= i then Err(cut.value.error)
    else if i < |out| then out[i] else Err(TruncatedStream)
  }

  /** Outputs from the `k`-th on, up to the first that closes the stream; one that stops short is truncated. */
  function Shown(out: seq<Item>, cut: Option<Cut>, k: nat): seq<Item>
    decreases |out| - k
  {
    var item := ShownAt(out, cut, k);
    [item] + if IsLast(item) then [] else Shown(out, cut, k + 1)
  }

  lemma {:induction false} ShownMeans(out: seq<Item>, cut: Option<Cut>, k: nat)
    ensures var all := Shown(out, cut, k);
            && Orderly(all) && Closed(all)
            && forall i :: 0 <= i < |all| ==> all[i] == ShownAt(out, cut, k + i)
    decreases |out| - k
  {
    var item := ShownAt(out, cut, k);
    if IsLast(item) {
      EmptySides([item]);
    } else {
      ShownMeans(out, cut, k + 1);
      var rest := Shown(out, cut, k + 1);
      assert Shown(out, cut, k) == [item] + rest;
      forall i | 0 <= i < |rest| + 1 ensures ([item] + rest)[i] == ShownAt(out, cut, k + i) {
        if i > 0 { assert ([item] + rest)[i] == rest[i - 1]; }
      }
    }
  }

  /** The first closing output ends what is shown. */
  lemma {:induction false} ShownLength(out: seq<Item>, n: nat, k: nat)
    requires k <= n <= |out| && (forall i :: k <= i < n ==> !IsLast(out[i])) && (n < |out| ==> IsLast(out[n]))
    ensures |Shown(out, None, k)| == n + 1 - k
    decreases n - k
  {
    if k < n { ShownLength(out, n, k + 1); }
  }

  /** An uncut response is shown up to its first closing output, whatever comes after it. */
  lemma ShownToTheEnd(out: seq<Item>, n: nat)
    requires n <= |out| && (forall i :: 0 <= i < n ==> !IsLast(out[i])) && (n < |out| ==> IsLast(out[n]))
    ensures Shown(out, None, 0) == if n < |out| then out[..n + 1] else out + [Err(TruncatedStream)]
  {
    ShownMeans(out, None, 0);
    ShownLength(out, n, 0);
  }

  /** Everything a request with that fate has to show. */
  function Answer<M>(s: Service<M>, fate: Fate): seq<Item> {
    if fate.Lost? then [Err(fate.error)]
    else
      var r := s.responses(fate.attempt);
      Shown(Heard(s.protocol, r), r.cut, 0)
  }

  lemma AnswerMeans<M>(s: Service<M>, fate: Fate)
    ensures var all := Answer(s, fate);
            && Orderly(all) && Closed(all)
            && forall i :: 0 <= i < |all| ==> all[i] == ItemOf(WorldOf(s), fate, i)
  {
    if fate.Winner? {
      var r := s.responses(fate.attempt);
      ShownMeans(Heard(s.protocol, r), r.cut, 0);
    }
  }

  /** What has been yielded is the beginning of the answer, and the stream closes where the answer ends. */
  predicate Begins(items: seq<Item>, all: seq<Item>) {
    |items| <= |all| && items == all[..|items|] && (Closed(items) <==> |items| == |all|)
  }

  /** Whatever a request with that fate yields is the beginning of `all`. */
  ghost predicate LeadsTo(w: World, fate: Fate, all: seq<Item>) {
    forall items :: Prefix(items, w, fate) ==> Begins(items, all)
  }

  lemma AnswerLeads<M>(s: Service<M>, fate: Fate)
    ensures LeadsTo(WorldOf(s), fate, Answer(s, fate))
  {
    forall items | Prefix(items, WorldOf(s), fate) ensures Begins(items, Answer(s, fate)) {
      AnswerBegins(s, fate, items);
    }
  }

  lemma AnswerBegins<M>(s: Service<M>, fate: Fate, items: seq<Item>)
    requires Prefix(items, WorldOf(s), fate)
    ensures Begins(items, Answer(s, fate))
  {
    var all := Answer(s, fate);
    AnswerMeans(s, fate);
    OneAttemptDelivers(WorldOf(s), fate, |items|);
    if |items| > |all| { assert false; }
    if 0 < |items| < |all| { assert items[|items| - 1] == all[|items| - 1]; }
  }

  /** The message or the error a whole request comes to. */
  function MessageFor<M>(s: Service<M>, c: Config): Result<AssistantMessage, CollectError> {
    var w := WorldOf(s);
    if Refusal(w).Some? then Err(StreamFailed(Refusal(w).value))
    else VerdictFrom(Answer(s, Resolve(w, c, 1, 0)), 0)
  }

  // ---------------------------------------------------------------- collecting while streaming

  /** How many items are read before the verdict is known: the rest is dropped after a fault. */
  function Heeded(all: seq<Item>, k: nat): (h: nat)
    requires k <= |all|
    ensures k <= h <= |all|
    decreases |all| - k
  {
    if k == |all| then k else if Fault(all, k).Some? then k + 1 else Heeded(all, k + 1)
  }

  /** The collector has accepted all items so far, and the verdict is still open. */
  ghost predicate Reading(collector: Collector, items: seq<Item>, all: seq<Item>)
    reads collector
  {
    && collector.Valid() && collector.history == EventsOf(items) && Begins(items, all)
    && VerdictFrom(all, 0) == VerdictFrom(all, |items|) && Heeded(all, 0) == Heeded(all, |items|)
  }

  /** The verdict is known after `items`. */
  ghost predicate Decided(r: Result<AssistantMessage, CollectError>, items: seq<Item>, all: seq<Item>) {
    Begins(items, all) && r == VerdictFrom(all, 0) && |items| == Heeded(all, 0)
  }

  lemma EventsNext(items: seq<Item>, item: Item)
    ensures EventsOf(items + [item]) == EventsOf(items) + if item.Ok? then [item.value] else []
  {
    TakeDrop(items, [item]);
  }

  /** The next item is accepted, or it is the fault that decides. */
  method Read(collector: Collector, item: Item, ghost items: seq<Item>, ghost all: seq<Item>)
    returns (r: Option<Result<AssistantMessage, CollectError>>)
    requires Reading(collector, items, all) && !Closed(items) && Begins(items + [item], all)
    modifies collector
    ensures r.None? ==> Reading(collector, items + [item], all)
    ensures r.Some? ==> Decided(r.value, items + [item], all)
  {
    EventsNext(items, item);
    assert all[|items|] == item by { assert (items + [item])[|items|] == item; }
    if item.Err? {
      return Some(Err(StreamFailed(item.error)));
    }
    var accepted := collector.Accept(item.value);
    r := if accepted.Err? then Some(Err(accepted.error)) else None;
  }

  method Close(collector: Collector, ghost items: seq<Item>, ghost all: seq<Item>)
    returns (r: Result<AssistantMessage, CollectError>)
    requires Reading(collector, items, all) && Closed(items)
    ensures Decided(r, items, all)
  {
    assert items == all;
    r := collector.Finish();
  }

  /** The caller waits for the `k`-th poll as long as `delays` says, and for later ones until they answer. */
  function PatienceAt(delays: seq<nat>, k: nat, c: Config): nat { if k < |delays| then delays[k] else Longest(c) }

  /** One poll of the public stream: the next item of what there is to show, the end, or nothing yet. */
  method NextItem(
    stream: AssistantStream, runner: RequestRunner, patience: nat, k: Record, ghost fate: Fate, ghost all: seq<Item>)
    returns (next: Record, answer: Public)
    requires OnRecord(k, stream, runner, fate) && LeadsTo(runner.world, fate, all)
    modifies stream, runner, runner.state
    ensures OnRecord(next, stream, runner, fate) && |next.polls| == |k.polls| + 1
    ensures k.reports <= next.reports
    ensures Answers(answer, old(stream.items), stream.items) && Begins(stream.items, all)
    ensures answer.Pending? ==> patience < Longest(runner.config)
  {
    next := PollOnce(stream, runner, patience, k, fate);
    answer := next.polls[|k.polls|];
  }

  /** What an answer does to the collector. */
  method Take(
    collector: Collector, answer: Public, ghost before: seq<Item>, ghost items: seq<Item>, ghost all: seq<Item>)
    returns (r: Option<Result<AssistantMessage, CollectError>>)
    requires Reading(collector, before, all) && Answers(answer, before, items) && Begins(items, all)
    modifies collector
    ensures r.None? ==> Reading(collector, items, all) && |items| == |before| + if answer.Yield? then 1 else 0
    ensures r.Some? ==> Decided(r.value, items, all)
    ensures answer.End? ==> r.Some?
  {
    EmptySides(before);
    match answer {
      case Pending =>
        r := None;
      case End =>
        var message := Close(collector, before, all);
        r := Some(message);
      case Yield(item) =>
        r := Read(collector, item, before, all);
    }
  }

  /** Reading has just begun, goes on, or is over. */
  ghost predicate ReadOrDecided(
    collector: Collector, r: Option<Result<AssistantMessage, CollectError>>, items: seq<Item>, all: seq<Item>)
    reads collector
  {
    if r.None? then Reading(collector, items, all) else Decided(r.value, items, all)
  }

  method OpenCollector(ghost all: seq<Item>) returns (collector: Collector)
    requires Begins([], all)
    ensures fresh(collector) && Reading(collector, [], all)
  {
    collector := new Collector();
  }

  /** What is left of the caller's delays and of the items; every poll takes something away. */
  function Left(delays: seq<nat>, k: Record, items: seq<Item>, all: seq<Item>): nat {
    Max(|delays| - |k.polls|, 0) + Max(|all| - |items|, 0)
  }

  lemma LeftShrinks(
    delays: seq<nat>, c: Config, k: Record, next: Record, answer: Public, before: seq<Item>, items: seq<Item>,
    all: seq<Item>)
    requires |next.polls| == |k.polls| + 1 && Answers(answer, before, items) && Begins(items, all) && !answer.End?
    requires answer.Pending? ==> PatienceAt(delays, |k.polls|, c) < Longest(c)
    ensures Left(delays, next, items, all) < Left(delays, k, before, all)
  {
  }

  /** Hands the answer to a poll to the collector. */
  method Hand(
    stream: AssistantStream, runner: RequestRunner, collector: Collector, k: Record, answer: Public,
    ghost before: seq<Item>, ghost fate: Fate, ghost all: seq<Item>)
    returns (r: Option<Result<AssistantMessage, CollectError>>)
    requires OnRecord(k, stream, runner, fate) && Reading(collector, before, all)
    requires Answers(answer, before, stream.items) && Begins(stream.items, all)
    modifies collector
    ensures OnRecord(k, stream, runner, fate) && ReadOrDecided(collector, r, stream.items, all)
    ensures answer.End? ==> r.Some?
  {
    r := Take(collector, answer, before, stream.items, all);
  }

  /** Polls once and hands what comes to the collector. */
  method ReadOnce(
    stream: AssistantStream, runner: RequestRunner, collector: Collector, delays: seq<nat>, k: Record,
    ghost fate: Fate, ghost all: seq<Item>)
    returns (next: Record, r: Option<Result<AssistantMessage, CollectError>>)
    requires OnRecord(k, stream, runner, fate) && LeadsTo(runner.world, fate, all)
    requires Reading(collector, stream.items, all)
    modifies stream, runner, runner.state, collector
    ensures OnRecord(next, stream, runner, fate) && k.reports <= next.reports
    ensures ReadOrDecided(collector, r, stream.items, all)
    ensures r.None? ==> Left(delays, next, stream.items, all) < Left(delays, k, old(stream.items), all)
  {
    ghost var before := stream.items;
    var answer;
    next, answer := NextItem(stream, runner, PatienceAt(delays, |k.polls|, runner.config), k, fate, all);
    if !answer.End? { LeftShrinks(delays, runner.config, k, next, answer, before, stream.items, all); }
    r := Hand(stream, runner, collector, next, answer, before, fate, all);
  }

  /** Reads a public stream into the collector, up to the end or the first fault. */
  method CollectStream(
    stream: AssistantStream, runner: RequestRunner, start: Record, delays: seq<nat>,
    ghost fate: Fate, ghost all: seq<Item>)
    returns (r: Result<AssistantMessage, CollectError>, k: Record)
    requires OnRecord(start, stream, runner, fate) && stream.items == [] && Begins([], all)
    requires LeadsTo(runner.world, fate, all)
    modifies stream, runner, runner.state
    ensures OnRecord(k, stream, runner, fate) && start.reports <= k.reports
    ensures Decided(r, stream.items, all)
  {
    var collector := OpenCollector(all);
    var decided := None;
    k := start;
    while decided.None?
      invariant OnRecord(k, stream, runner, fate) && start.reports <= k.reports
      invariant fresh(collector) && ReadOrDecided(collector, decided, stream.items, all)
      decreases decided.None?, Left(delays, k, stream.items, all)
    {
      k, decided := ReadOnce(stream, runner, collector, delays, k, fate, all);
    }
    r := decided.value;
  }

  /**
   A whole request, from the service's bytes to the message: the result is the verdict on what the one
   attempt that won has to show, and the items read are those up to the first fault.
   */
  method Complete<M>(s: Service<M>, c: Config, delays: seq<nat>, observed: bool)
    returns (r: Result<AssistantMessage, CollectError>, t: Transcript)
    ensures r == MessageFor(s, c)
    ensures Observes(WorldOf(s), t, observed) && t.started.Some?
    ensures Refusal(WorldOf(s)).None? ==>
              var fate := Resolve(WorldOf(s), c, 1, 0);
              && AttemptsFit(t, fate)
              && (t.Failed() ==> r == Err(StreamFailed(t.started.value.error)) && t.polls == [])
              && (t.Opened() ==> Decided(r, Yielded(t.polls), Answer(s, fate)))
  {
    ghost var fate := Resolve(WorldOf(s), c, 1, 0);
    var runner, started := Begin(WorldOf(s), c, Longest(c));
    if started.value.Err? {
      var _ := runner.state.MarkTerminal();
      t := Unstreamed(WorldOf(s), Some(started.value.error), runner, observed);
      r := Err(StreamFailed(started.value.error));
      if Refusal(WorldOf(s)).None? { UnstreamedFits(runner, started, Longest(c), fate, t); }
    } else {
      var stream, start := Attach(runner, observed, fate);
      var k;
      AnswerLeads(s, fate);
      AnswerBegins(s, fate, []);
      r, k := CollectStream(stream, runner, start, delays, fate, Answer(s, fate));
      t := Conclude(stream, runner, k, fate);
    }
  }

  // ---------------------------------------------------------------- what caller and observer learn

  /** The items read end with the first fault, or are all there is. */
  lemma {:induction false} HeededMeans(all: seq<Item>, k: nat)
    requires k <= |all|
    ensures forall j :: k <= j < Heeded(all, k) - 1 ==> Fault(all, j).None?
    ensures VerdictFrom(all, k) ==
            var h := Heeded(all, k);
            if h > k && Fault(all, h - 1).Some? then Err(Fault(all, h - 1).value) else VerdictFrom(all, |all|)
    ensures Heeded(all, k) < |all| ==> Heeded(all, k) > k && Fault(all, Heeded(all, k) - 1).Some?
    decreases |all| - k
  {
    if k < |all| && Fault(all, k).None? { HeededMeans(all, k + 1); }
  }

  /** All is well with a stream but its `Done`, which does not follow what came before it. */
  predicate DoneRefused(all: seq<Item>) {
    && all != [] && IsDone(all[|all| - 1]) && Fault(all, |all| - 1).Some?
    && forall j :: 0 <= j < |all| - 1 ==> Fault(all, j).None?
  }

  /** In a stream that ends with its first closing item, an error is a failure and anything else breaks the grammar. */
  lemma FaultKinds(all: seq<Item>, k: nat)
    requires Orderly(all) && k < |all|
    ensures Fault(all, k).Some? ==>
              Fault(all, k).value == if all[k].Err? then StreamFailed(all[k].error) else Violation
  {
    LastEvent(all, k);
  }

  /** Without a fault, such a stream ends with `Done` and stands for a message. */
  lemma FaultlessCloses(all: seq<Item>)
    requires Orderly(all) && Closed(all) && Fault(all, |all| - 1).None?
    ensures IsDone(all[|all| - 1]) && VerdictFrom(all, |all|).Ok?
  {
    LastEvent(all, |all|);
    assert all[..|all|] == all;
    assert HasDone(EventsOf(all));
  }

  /** What an observer is told when the first `h` items of `all` were read and the stream was dropped. */
  lemma VerdictOnRead(all: seq<Item>, h: nat)
    requires Orderly(all) && Closed(all) && 0 < h <= |all|
    ensures var told := Verdict(all[..h]);
            && (h < |all| ==> told == RequestCancelled(true))
            && (h == |all| && IsDone(all[h - 1]) ==> told.RequestCompleted?)
            && (all[h - 1].Err? ==> h == |all| && told == ErrorReport(all[h - 1].error, |all| > 1))
  {
    var read := all[..h];
    assert read[h - 1] == all[h - 1];
  }

  /**
   What the caller gets and what an observer is told of a request that shows `all`: a failed stream is
   told as the failure the caller gets; a stream that breaks the grammar is dropped, and told as
   cancelled, unless it is its `Done` that breaks it.
   */
  lemma CallerAndObserver(all: seq<Item>)
    requires Orderly(all) && Closed(all)
    ensures var r, told := VerdictFrom(all, 0), Verdict(all[..Heeded(all, 0)]);
            && (r.Ok? ==> told.RequestCompleted?)
            && (r.Err? ==> r.error.StreamFailed? || r.error.Violation?)
            && (r.Err? && r.error.StreamFailed? ==> told == ErrorReport(r.error.error, |all| > 1))
            && (r == Err(Violation) ==>
                  if DoneRefused(all) then told.RequestCompleted? else told == RequestCancelled(true))
  {
    var h := Heeded(all, 0);
    HeededMeans(all, 0);
    VerdictOnRead(all, h);
    FaultKinds(all, h - 1);
    if Fault(all, h - 1).None? { FaultlessCloses(all); }
  }

  lemma RefusedDoneDecides(all: seq<Item>)
    requires Orderly(all) && DoneRefused(all)
    ensures VerdictFrom(all, 0) == Err(Violation)
  {
    FirstFaultDecides(all, |all| - 1, 0);
    FaultKinds(all, |all| - 1);
  }

  /** Told as completed exactly when the caller gets a message: that holds if and only if `Done` is not refused. */
  lemma CompletedMeansMessage(all: seq<Item>)
    requires Orderly(all) && Closed(all)
    ensures (Verdict(all[..Heeded(all, 0)]).RequestCompleted? <==> VerdictFrom(all, 0).Ok?) <==> !DoneRefused(all)
  {
    CallerAndObserver(all);
    if DoneRefused(all) { RefusedDoneDecides(all); }
  }

  /** It does happen: a stream that consists of `Done` alone. */
  lemma CompletedWithoutMessage(reason: FinishReason)
    ensures var all: seq<Item> := [Ok(Done(reason))];
            && VerdictFrom(all, 0) == Err(Violation)
            && Verdict(all[..Heeded(all, 0)]) == RequestCompleted(1, false)
  {
    var all: seq<Item> := [Ok(Done(reason))];
    assert all[..0] == [] && all[..1] == all;
    assert Fault(all, 0) == Some(Violation);
    assert Delivered(all[..0]) == 0 && Delivered(all) == 1;
    assert Closed(all) && !UsageSeen(all);
  }

  // ---------------------------------------------------------------- delivery leaves no trace

  /** Two services that send the same bytes, in whatever chunks and at whatever pace. */
  ghost predicate SameService<M(!new)>(a: Service<M>, b: Service<M>) {
    && a.protocol == b.protocol && a.pauses == b.pauses
    && a.planning == b.planning && a.preparation == b.preparation && a.preflight == b.preflight
    && forall n: nat :: SameResponse(a.responses(n), b.responses(n))
  }

  predicate SameResponse<M(==)>(x: Response<M>, y: Response<M>) {
    && x.exchange == y.exchange && x.machine == y.machine && x.cut == y.cut
    && SameDelivery(x.sse, x.answers, y.sse, y.answers)
  }

  lemma SameHeard<M(!new)>(a: Service<M>, b: Service<M>, n: nat)
    requires SameService(a, b)
    ensures Heard(a.protocol, a.responses(n)) == Heard(b.protocol, b.responses(n))
    ensures EarlyError(WorldOf(a).attempts(n)) == EarlyError(WorldOf(b).attempts(n))
  {
    var x, y := a.responses(n), b.responses(n);
    assert SameResponse(x, y);
    OutputsIgnoreDelivery(x.sse, x.answers, y.sse, y.answers, a.protocol, x.machine);
  }

  lemma {:induction false} SameFate<M(!new)>(a: Service<M>, b: Service<M>, c: Config, n: nat, waited: nat)
    requires SameService(a, b)
    ensures Resolve(WorldOf(a), c, n, waited) == Resolve(WorldOf(b), c, n, waited)
    decreases c.retries.maxAttempts - n
  {
    var v, w := WorldOf(a), WorldOf(b);
    SameHeard(a, b, n);
    var error := EarlyError(v.attempts(n));
    if error.Some? {
      EarlyFailure(v, c, n, waited);
      EarlyFailure(w, c, n, waited);
      var plan := PlannedWait(v, c, false, error.value, n, waited);
      if plan.Some? && v.pauses(n).interrupted.None? {
        SameFate(a, b, c, n + 1, SatPlus(waited, plan.value.effectiveDelay));
      }
    }
  }

  /** Message and error depend on the bytes and how they end, not on chunks, delays or poll budgets. */
  lemma MessageIgnoresDelivery<M(!new)>(a: Service<M>, b: Service<M>, c: Config)
    requires SameService(a, b)
    ensures MessageFor(a, c) == MessageFor(b, c)
  {
    SameFate(a, b, c, 1, 0);
    var fate := Resolve(WorldOf(a), c, 1, 0);
    if fate.Winner? {
      SameHeard(a, b, fate.attempt);
      assert SameResponse(a.responses(fate.attempt), b.responses(fate.attempt));
    }
  }
}
