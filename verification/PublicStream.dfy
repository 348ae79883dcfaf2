/** The stream handed to callers: what it yields, what it reports, and that it ends exactly once. */
module PublicStream {
  import opened Prelude
  import opened Errors
  import opened Events
  import opened ExecutionState

  type Item = Result<AssistantEvent, LlmError>

  datatype Inner = InnerPending | InnerEnd | InnerItem(item: Item)

  datatype Public = Pending | End | Yield(item: Item)

  /** Lifecycle events of the request itself; the last four end it. */
  datatype Report =
    | RequestStarted
    | ValidationCompleted
    | FirstSseEvent(providerRequestId: Option<Bytes>, generationId: Option<Bytes>)
    | FirstDomainEventDelivered
    | FinishSeen(finishReason: FinishReason)
    | DoneSeen
    | RequestCompleted(eventCount: nat, usageKnown: bool)
    | RequestFailed(error: LlmError, partialOutput: bool)
    | RequestCancelled(partialOutput: bool)
    | RequestTimedOut(partialOutput: bool)
  {
    predicate Ends() { RequestCompleted? || RequestFailed? || RequestCancelled? || RequestTimedOut? }
  }

  // ---------------------------------------------------------------- what a stream should report

  predicate IsDone(item: Item) { item.Ok? && item.value.Done? }

  predicate IsLast(item: Item) { item.Err? || item.value.Done? }

  /** Nothing follows an item that ends the stream. */
  predicate Orderly(items: seq<Item>) { forall i :: 0 <= i < |items| - 1 ==> !IsLast(items[i]) }

  predicate Closed(items: seq<Item>) { items != [] && IsLast(items[|items| - 1]) }

  predicate Reports(item: Item) { item.Ok? && (item.value.UsageReport? || item.value.DetailedUsage?) }

  function Delivered(items: seq<Item>): nat {
    if items == [] then 0 else Delivered(items[..|items| - 1]) + if items[|items| - 1].Ok? then 1 else 0
  }

  predicate UsageSeen(items: seq<Item>) { exists i :: 0 <= i < |items| && Reports(items[i]) }

  function ErrorReport(error: LlmError, partial: bool): Report {
    match error
    case Cancelled => RequestCancelled(partial)
    case Timeout(_, _) => RequestTimedOut(partial)
    case _ => RequestFailed(error, partial)
  }

  /** The one report that ends a request whose stream yielded `items` and was then dropped. */
  function Verdict(items: seq<Item>): Report {
    if !Closed(items) then RequestCancelled(items != [])
    else
      var last := items[|items| - 1];
      if last.Err? then ErrorReport(last.error, |items| > 1)
      else RequestCompleted(Min(Delivered(items), U64_MAX), UsageSeen(items))
  }

  function Endings(log: seq<Report>): seq<Report> {
    if log == [] then [] else Endings(log[..|log| - 1]) + if log[|log| - 1].Ends() then [log[|log| - 1]] else []
  }

  function LastReport(log: seq<Report>): Option<Report> { if log == [] then None else Some(log[|log| - 1]) }

  lemma EndingsAppend(log: seq<Report>, r: Report)
    ensures Endings(log + [r]) == if r.Ends() then Endings(log) + [r] else Endings(log)
  {
    TakeDrop(log, [r]);
    EmptySides(Endings(log));
  }

  /** What is known about the output once `items` were yielded. */
  datatype Completion = Completion(partialOutput: bool, usageKnown: bool, eventCount: nat)

  function CompletionOf(items: seq<Item>): Completion {
    Completion(Delivered(items) > 0, UsageSeen(items), Min(Delivered(items), U64_MAX))
  }

  lemma ItemsAppend(items: seq<Item>, item: Item)
    requires !Closed(items) && Orderly(items)
    ensures Orderly(items + [item]) && (Closed(items + [item]) <==> IsLast(item))
    ensures item.Err? ==> CompletionOf(items + [item]) == CompletionOf(items)
    ensures item.Ok? ==>
              var c := CompletionOf(items);
              CompletionOf(items + [item]) == Completion(true, c.usageKnown || Reports(item), SatAdd(c.eventCount, 1))
  {
    var all := items + [item];
    TakeDrop(items, [item]);
    assert all[|items|] == item && forall i :: 0 <= i < |items| ==> all[i] == items[i];
    assert UsageSeen(all) <==> UsageSeen(items) || Reports(item);
  }

  lemma VerdictOnLast(items: seq<Item>, item: Item)
    requires !Closed(items) && Orderly(items) && IsLast(item)
    ensures item.Err? ==> Verdict(items + [item]) == ErrorReport(item.error, CompletionOf(items).partialOutput)
    ensures item.Ok? ==>
              var c := CompletionOf(items + [item]);
              Verdict(items + [item]) == RequestCompleted(c.eventCount, c.usageKnown)
  {
    AllDelivered(items);
    ItemsAppend(items, item);
    assert (items + [item])[|items|] == item;
  }

  lemma {:induction false} AllDelivered(items: seq<Item>)
    requires Orderly(items) && !Closed(items)
    ensures Delivered(items) == |items|
  {
    if items != [] {
      var init := items[..|items| - 1];
      assert forall i :: 0 <= i < |init| ==> init[i] == items[i];
      assert !Closed(init);
      AllDelivered(init);
    }
  }

  /** Ids are known from the start event only. */
  function FirstReport(e: AssistantEvent): Report {
    if e.Start? then FirstSseEvent(e.providerRequestId, e.generationId) else FirstSseEvent(None, None)
  }

  // ---------------------------------------------------------------- the stream

  class AssistantStream {
    const observed: bool
    const state: RequestExecutionState
    var firstEventSeen: bool
    var terminal: bool
    var completion: Completion
    var cancelled: bool
    var log: seq<Report>
    /** Everything yielded so far. */
    ghost var items: seq<Item>

    ghost predicate Valid()
      reads this, state
    {
      && Orderly(items)
      && terminal == Closed(items) == state.terminal
      && completion == CompletionOf(items)
      && state.delivered == firstEventSeen == completion.partialOutput
      && Endings(log) == (if observed && terminal then [Verdict(items)] else [])
      && (observed && terminal ==> LastReport(log) == Some(Verdict(items)))
      && (!observed ==> log == [])
    }

    /** `told` is what has been reported before there was a stream. */
    constructor (observed: bool, state: RequestExecutionState, told: seq<Report>)
      requires !state.terminal && !state.delivered && Endings(told) == []
      ensures Valid() && items == [] && !terminal && this.observed == observed && this.state == state
      ensures log == if observed then told else []
    {
      this.observed, this.state := observed, state;
      firstEventSeen, terminal, cancelled, completion := false, false, false, Completion(false, false, 0);
      log, items := if observed then told else [], [];
    }

    method Emit(r: Report)
      modifies this`log
      ensures log == if observed then old(log) + [r] else old(log)
      ensures Endings(log) == if observed && r.Ends() then Endings(old(log)) + [r] else Endings(old(log))
    {
      EndingsAppend(log, r);
      if observed { log := log + [r]; }
    }

    method ObserveFirst(e: AssistantEvent)
      modifies this`log, this`firstEventSeen
      ensures firstEventSeen && Endings(log) == Endings(old(log)) && (!observed ==> log == old(log)) && old(log) <= log
      ensures old(firstEventSeen) ==> log == old(log)
      ensures observed && !old(firstEventSeen) ==>
                log == old(log) + [FirstReport(e)] + [FirstDomainEventDelivered]
    {
      if firstEventSeen {
        return;
      }
      firstEventSeen := true;
      Emit(FirstReport(e));
      Emit(FirstDomainEventDelivered);
    }

    /** One poll; `inner` is what the inner stream answers, and is not asked for after the end. */
    method PollNext(inner: Inner) returns (r: Public)
      requires Valid()
      modifies this, state
      ensures Valid() && old(log) <= log
      ensures old(terminal) ==> r == End && items == old(items) && log == old(log)
      ensures !old(terminal) ==>
                match inner
                case InnerPending => r == Pending && items == old(items)
                case InnerEnd => r == Yield(Err(TruncatedStream)) && items == old(items) + [Err(TruncatedStream)]
                case InnerItem(item) => r == Yield(item) && items == old(items) + [item]
    {
      if terminal {
        return End;
      }
      match inner {
        case InnerPending =>
          r := Pending;
        case InnerEnd =>
          Fail(TruncatedStream);
          r := Yield(Err(TruncatedStream));
        case InnerItem(item) =>
          if item.Err? {
            Fail(item.error);
          } else {
            Deliver(item.value);
          }
          r := Yield(item);
      }
    }

    method Fail(error: LlmError)
      requires Valid() && !terminal
      modifies this, state
      ensures Valid() && items == old(items) + [Err(error)] && old(log) <= log
    {
      ItemsAppend(items, Err(error));
      VerdictOnLast(items, Err(error));
      EndWith(ErrorReport(error, completion.partialOutput));
      items := items + [Err(error)];
    }

    method EndWith(report: Report)
      requires report.Ends()
      modifies this`log, this`terminal, state`terminal, state`progress
      ensures terminal && state.terminal && (!observed ==> log == old(log)) && old(log) <= log
      ensures Endings(log) == Endings(old(log)) + if observed then [report] else []
      ensures observed ==> LastReport(log) == Some(report)
    {
      terminal := true;
      var _ := state.MarkTerminal();
      Emit(report);
      EmptySides(Endings(old(log)));
    }

    method Deliver(e: AssistantEvent)
      requires Valid() && !terminal
      modifies this, state
      ensures Valid() && items == old(items) + [Ok(e)] && old(log) <= log
    {
      ItemsAppend(items, Ok(e));
      state.MarkDelivered();
      ObserveFirst(e);
      completion := Completion(true, completion.usageKnown || Reports(Ok(e)), SatAdd(completion.eventCount, 1));
      if e.Done? {
        VerdictOnLast(items, Ok(e));
        Complete(e.finishReason);
      }
      items := items + [Ok(e)];
    }

    method Complete(reason: FinishReason)
      modifies this`log, this`terminal, state`terminal, state`progress
      ensures terminal && state.terminal && (!observed ==> log == old(log)) && old(log) <= log
      ensures observed ==> LastReport(log) == Some(RequestCompleted(completion.eventCount, completion.usageKnown))
      ensures Endings(log) ==
              Endings(old(log))
              + if observed then [RequestCompleted(completion.eventCount, completion.usageKnown)] else []
    {
      Emit(FinishSeen(reason));
      Emit(DoneSeen);
      Emit(RequestCompleted(completion.eventCount, completion.usageKnown));
      terminal := true;
      var _ := state.MarkTerminal();
    }

    /** Dropping a stream that has not ended cancels the request; afterwards exactly one report has ended it. */
    method Drop()
      requires Valid()
      modifies this`log, this`cancelled, state
      ensures items == old(items) && terminal == old(terminal) && state.terminal
      ensures old(log) <= log && (terminal ==> log == old(log))
      ensures observed ==> Endings(log) == [Verdict(items)] && LastReport(log) == Some(Verdict(items))
      ensures !observed ==> log == []
      ensures cancelled == (old(cancelled) || !terminal)
    {
      AllDeliveredUnless(items);
      if !terminal {
        var won := state.MarkTerminal();
        if won {
          cancelled := true;
          Emit(RequestCancelled(completion.partialOutput));
        }
      }
    }
  }

  lemma AllDeliveredUnless(items: seq<Item>)
    requires Orderly(items)
    ensures !Closed(items) ==> Delivered(items) == |items|
  {
    if !Closed(items) { AllDelivered(items); }
  }

  // ---------------------------------------------------------------- a whole session

  /** Items that `polls` yielded. */
  function Yielded(polls: seq<Public>): seq<Item> {
    if polls == [] then []
    else Yielded(polls[..|polls| - 1]) + if polls[|polls| - 1].Yield? then [polls[|polls| - 1].item] else []
  }

  /** Nothing but `End` comes after the item that closes the stream, and `End` comes only then. */
  predicate Fused(polls: seq<Public>) {
    polls == [] ||
    (Fused(polls[..|polls| - 1]) && (polls[|polls| - 1].End? <==> Closed(Yielded(polls[..|polls| - 1]))))
  }

  lemma YieldedAppend(polls: seq<Public>, r: Public)
    ensures Yielded(polls + [r]) == if r.Yield? then Yielded(polls) + [r.item] else Yielded(polls)
  {
    TakeDrop(polls, [r]);
    EmptySides(Yielded(polls));
  }

  lemma FusedAppend(polls: seq<Public>, r: Public)
    requires Fused(polls) && (r.End? <==> Closed(Yielded(polls)))
    ensures Fused(polls + [r])
  {
    TakeDrop(polls, [r]);
  }

  /**
   Any inner stream, polled any number of times and then dropped: ordinary events, then at most one
   `Done` or error, then nothing but the end; one report ends the request, and it tells the truth.
   */
  method Session(inner: seq<Inner>, observed: bool) returns (polls: seq<Public>, log: seq<Report>)
    ensures |polls| == |inner| && Fused(polls) && Orderly(Yielded(polls))
    ensures observed ==> Endings(log) == [Verdict(Yielded(polls))] && LastReport(log) == Some(Verdict(Yielded(polls)))
    ensures !observed ==> log == []
  {
    var state := new RequestExecutionState();
    var stream := new AssistantStream(observed, state, []);
    polls := [];
    while |polls| < |inner|
      invariant |polls| <= |inner| && fresh(stream) && fresh(state)
      invariant stream.state == state && stream.observed == observed
      invariant stream.Valid() && stream.items == Yielded(polls) && Fused(polls)
    {
      var r := stream.PollNext(inner[|polls|]);
      YieldedAppend(polls, r);
      FusedAppend(polls, r);
      polls := polls + [r];
    }
    stream.Drop();
    log := stream.log;
  }
}
