/** The driver that feeds decoded SSE events to a protocol state machine. */
module ResponseStream {
  import opened Prelude
  import opened Errors
  import S = Sse
  import opened SseReference
  import opened SseDecoding

  /** What a protocol machine answers; after a rejection it is not consulted again. */
  datatype MachineStep<M, E> = Produced(machine: M, events: seq<E>) | Rejected(error: LlmError)

  /** Any protocol machine: a transition per SSE event and one at the end of the stream. */
  datatype Machine<!M, !E> = Machine(accept: (M, S.SseEvent) -> MachineStep<M, E>, finish: M -> MachineStep<M, E>)

  function Oks<E>(events: seq<E>): (items: seq<Result<E, LlmError>>)
    ensures |items| == |events|
    ensures forall i :: 0 <= i < |events| ==> items[i] == Ok(events[i])
  {
    seq(|events|, i requires 0 <= i < |events| => Ok(events[i]))
  }

  /** All outputs in order: `accept` per event, then `finish`, cut at the first error. */
  function Interpret<M, E>(p: Machine<M, E>, m: M, items: seq<S.Item>): seq<Result<E, LlmError>> {
    if items == [] then
      match p.finish(m)
      case Produced(_, events) => Oks(events)
      case Rejected(e) => [Err(e)]
    else
      match items[0]
      case Err(e) => [Err(e.IntoLlmError())]
      case Ok(event) =>
        match p.accept(m, event)
        case Produced(m', events) => Oks(events) + Interpret(p, m', items[1..])
        case Rejected(e) => [Err(e)]
  }

  /** Whether the run gets to the machine's `finish`. */
  predicate Finishes<M, E>(p: Machine<M, E>, m: M, items: seq<S.Item>) {
    items == [] ||
      (items[0].Ok? && var step := p.accept(m, items[0].value); step.Produced? && Finishes(p, step.machine, items[1..]))
  }

  /** `finish` is reached only when the bytes ended cleanly. */
  lemma {:induction false} FinishNeedsCleanEnd<M, E>(p: Machine<M, E>, m: M, items: seq<S.Item>)
    requires Finishes(p, m, items)
    ensures forall i :: 0 <= i < |items| ==> items[i].Ok?
  {
    if items != [] { FinishNeedsCleanEnd(p, p.accept(m, items[0].value).machine, items[1..]); }
  }

  /** At most one error, always last, when the machine's outputs are taken as they come. */
  lemma {:induction false} ErrorsAreLast<M, E>(p: Machine<M, E>, m: M, items: seq<S.Item>)
    ensures var out := Interpret(p, m, items); forall i :: 0 <= i < |out| - 1 ==> out[i].Ok?
  {
    if items != [] && items[0].Ok? && p.accept(m, items[0].value).Produced? {
      var step := p.accept(m, items[0].value);
      ErrorsAreLast(p, step.machine, items[1..]);
      assert Interpret(p, m, items) == Oks(step.events) + Interpret(p, step.machine, items[1..]);
    }
  }

  class SseMachineStream<M, E> {
    const protocol: Machine<M, E>
    const source: SseDecoder
    const maxEventsPerPoll: nat
    var machine: M
    var pending: seq<Result<E, LlmError>>
    var terminal: bool
    /** How often the machine's `finish` ran. */
    ghost var finishes: nat

    constructor (answers: seq<UpstreamPoll>, config: S.Config, protocol: Machine<M, E>, machine: M)
      ensures Valid() && fresh(source) && finishes == 0
      ensures var items := Parse(config, StreamBytes(config, answers), StreamEnding(config, answers));
              && Remaining() == Interpret(protocol, machine, items)
              && FutureFinishes() == if Finishes(protocol, machine, items) then 1 else 0
    {
      source := new SseDecoder(answers, config);
      this.protocol, this.machine := protocol, machine;
      maxEventsPerPoll := config.maxEventsPerPoll;
      pending, terminal, finishes := [], false, 0;
      new;
      EmptySides(Interpret(protocol, machine, source.Remaining()));
    }

    ghost predicate Valid()
      reads this, source
    {
      source.Valid() && maxEventsPerPoll > 0
    }

    /** What is still to come from the source. */
    ghost function Unprocessed(): seq<Result<E, LlmError>>
      reads this, source
      requires Valid()
    {
      if terminal then [] else Interpret(protocol, machine, source.Remaining())
    }

    /** Everything that polling to the end will still deliver. */
    ghost function Remaining(): seq<Result<E, LlmError>>
      reads this, source
      requires Valid()
    {
      pending + Unprocessed()
    }

    ghost function FutureFinishes(): nat
      reads this, source
      requires Valid()
    {
      if !terminal && Finishes(protocol, machine, source.Remaining()) then 1 else 0
    }

    /** Strictly decreases with every poll until the stream is exhausted. */
    ghost function Work(): (nat, nat)
      reads this, source
      requires Valid()
    {
      (source.Work() + if terminal then 0 else 1, |pending|)
    }

    method Pop() returns (item: Option<Result<E, LlmError>>)
      modifies this`pending
      ensures match item
              case Some(i) => old(pending) == [i] + pending
              case None => old(pending) == [] == pending
    {
      if pending == [] { return None; }
      HeadTail(pending);
      item := Some(pending[0]);
      pending := pending[1..];
    }

    /** The clean end of the source: the machine's last word. */
    method Finish() returns (item: Option<Result<E, LlmError>>)
      requires Valid() && !terminal && pending == []
      modifies this
      ensures terminal && finishes == old(finishes) + 1
      ensures Interpret(protocol, old(machine), []) == if item.Some? then [item.value] + pending else []
      ensures item.None? ==> pending == []
    {
      terminal := true;
      finishes := finishes + 1;
      match protocol.finish(machine) {
        case Produced(m, events) =>
          machine := m;
          pending := Oks(events);
          item := Pop();
        case Rejected(e) =>
          item := Some(Err(e));
      }
    }

    /** One event: what the machine makes of it, then of the rest. */
    method Accept(event: S.SseEvent) returns (item: Option<Result<E, LlmError>>)
      requires Valid() && !terminal && pending == []
      modifies this
      ensures Valid() && finishes == old(finishes)
      ensures var items := [Ok(event)] + source.Remaining();
              && Interpret(protocol, old(machine), items) ==
                (if item.Some? then [item.value] + Remaining() else Remaining())
              && Finishes(protocol, old(machine), items) == (FutureFinishes() == 1)
      ensures item.None? ==> !terminal && pending == []
    {
      TakeDrop([Ok(event)], source.Remaining());
      match protocol.accept(machine, event) {
        case Rejected(e) =>
          terminal := true;
          return Some(Err(e));
        case Produced(m, events) =>
          machine := m;
          pending := Oks(events);
          item := Pop();
          if item.Some? { Regroup([item.value], pending, Unprocessed()); }
      }
    }

    /** Consumes one answer of the decoder; `None` when the machine swallowed an event silently. */
    method PollSource() returns (r: Option<Poll<Result<E, LlmError>>>)
      requires Valid() && !terminal && pending == []
      modifies this, source
      ensures Valid()
      ensures match r
              case Some(Ready(Some(item))) => old(Remaining()) == [item] + Remaining()
              case Some(Ready(None)) => old(Remaining()) == [] && terminal && pending == []
              case Some(Pending(_)) => !terminal && pending == [] && Remaining() == old(Remaining())
              case None => !terminal && pending == [] && Remaining() == old(Remaining())
      ensures finishes + FutureFinishes() == old(finishes + FutureFinishes())
      ensures Work().0 < old(Work().0)
    {
      EmptySides(Unprocessed());
      var answer := source.PollNext();
      match answer {
        case Pending(woken) =>
          r := Some(Pending(woken));
        case Ready(None) =>
          var item := Finish();
          EmptySides(pending);
          r := Some(Ready(item));
        case Ready(Some(Err(e))) =>
          terminal := true;
          r := Some(Ready(Some(Err(e.IntoLlmError()))));
        case Ready(Some(Ok(event))) =>
          var item := Accept(event);
          r := if item.Some? then Some(Ready(item)) else None;
      }
    }

    /**
     One poll: the next output of the interpreted parse, or `Pending` without losing any. A poll
     that used up its event budget wakes itself; otherwise `Pending` is the decoder's own.
     */
    method PollNext() returns (r: Poll<Result<E, LlmError>>)
      requires Valid()
      modifies this, source
      ensures Valid()
      ensures match r
              case Ready(Some(item)) => old(Remaining()) == [item] + Remaining()
              case Ready(None) => old(Remaining()) == [] == Remaining() && terminal && pending == []
              case Pending(_) => Remaining() == old(Remaining()) && !terminal && Work().0 < old(Work().0)
      ensures finishes + FutureFinishes() == old(finishes + FutureFinishes())
      ensures r != Ready(None) ==> Work().0 < old(Work().0) || (Work().0 == old(Work().0) && Work().1 < old(Work().1))
      ensures old(terminal) ==> terminal && (old(pending) == [] ==> r == Ready(None))
    {
      if pending != [] {
        var item := Pop();
        Regroup([item.value], pending, Unprocessed());
        return Ready(item);
      }
      if terminal {
        return Ready(None);
      }
      var eventsProcessed := 0;
      while true
        invariant Valid() && !terminal && pending == []
        invariant Remaining() == old(Remaining())
        invariant finishes + FutureFinishes() == old(finishes + FutureFinishes())
        invariant Work().0 + eventsProcessed <= old(Work().0)
        decreases Work().0
      {
        if eventsProcessed >= maxEventsPerPoll {
          return Pending(true);
        }
        var answer := PollSource();
        if answer.Some? {
          return answer.value;
        }
        eventsProcessed := eventsProcessed + 1;
      }
    }
  }

  /** Everything a response stream puts out. */
  function Outputs<M, E>(config: S.Config, answers: seq<UpstreamPoll>, protocol: Machine<M, E>, machine: M)
    : seq<Result<E, LlmError>>
  {
    Interpret(protocol, machine, Decoded(config, answers))
  }

  /** Outputs depend on the bytes and how they end: chunks, delays and poll budgets leave no trace. */
  lemma OutputsIgnoreDelivery<M, E>(
    x: S.Config, a: seq<UpstreamPoll>, y: S.Config, b: seq<UpstreamPoll>, protocol: Machine<M, E>, machine: M)
    requires SameDelivery(x, a, y, b)
    ensures Outputs(x, a, protocol, machine) == Outputs(y, b, protocol, machine)
    ensures Finishes(protocol, machine, Decoded(x, a)) == Finishes(protocol, machine, Decoded(y, b))
  {
    DeliveryIsInvisible(x, a, y, b);
  }

  /** Polls a fresh stream to the end; `finish` runs once or not at all. */
  method Drain<M, E>(config: S.Config, answers: seq<UpstreamPoll>, protocol: Machine<M, E>, machine: M)
    returns (outputs: seq<Result<E, LlmError>>, ghost finishes: nat)
    ensures outputs == Outputs(config, answers, protocol, machine)
    ensures finishes == if Finishes(protocol, machine, Decoded(config, answers)) then 1 else 0
  {
    var stream := new SseMachineStream(answers, config, protocol, machine);
    outputs, finishes := PollToEnd(stream);
  }

  method PollToEnd<M, E>(stream: SseMachineStream<M, E>)
    returns (outputs: seq<Result<E, LlmError>>, ghost finishes: nat)
    requires stream.Valid()
    modifies stream, stream.source
    ensures stream.Valid() && stream.terminal && stream.Remaining() == []
    ensures outputs == old(stream.Remaining())
    ensures finishes == stream.finishes == old(stream.finishes + stream.FutureFinishes())
  {
    outputs := [];
    while true
      invariant stream.Valid()
      invariant outputs + stream.Remaining() == old(stream.Remaining())
      invariant stream.finishes + stream.FutureFinishes() == old(stream.finishes + stream.FutureFinishes())
      decreases stream.Work().0, stream.Work().1
    {
      var r := stream.PollNext();
      if r == Ready(None) {
        finishes := stream.finishes;
        return;
      }
      if r.Ready? {
        Regroup(outputs, [r.item.value], stream.Remaining());
        outputs := outputs + [r.item.value];
      }
    }
  }
}
