/** What every reachable decoder state keeps. */
module SseInvariant {
  import opened Prelude
  import opened Sse
  import opened SseMachine
  import SseBounds

  /** Bytes retained for the data lines, one separator each. */
  function Retained(dataLines: seq<Bytes>): nat {
    if dataLines == [] then 0 else Retained(dataLines[..|dataLines| - 1]) + |dataLines[|dataLines| - 1]| + 1
  }

  /** Buffers stay within the limits, and everything buffered was charged to the event. */
  ghost predicate InBounds(cfg: Config, c: Core) {
    && |c.line| <= cfg.maxLineBytes
    && c.eventBytes <= cfg.maxEventBytes
    && |c.line| + Retained(c.dataLines) <= c.eventBytes
    && (cfg.maxFields.Some? ==> c.fieldCount <= cfg.maxFields.value)
  }

  lemma FinishLineInBounds(cfg: Config, c: Core)
    requires c.eventBytes <= cfg.maxEventBytes
    requires |c.line| + 1 + Retained(c.dataLines) <= c.eventBytes
    requires cfg.maxFields.Some? ==> c.fieldCount <= cfg.maxFields.value
    ensures !FinishLine(cfg, c).Failed? ==> InBounds(cfg, FinishLine(cfg, c).core)
  {
    if c.line != [] {
      var f := FieldOf(c.line);
      if f.Data? {
        SseBounds.DataFieldLength(c.line);
        TakeDrop(c.dataLines, [f.value]);
      }
    }
  }

  lemma StepInBounds(cfg: Config, c: Core, x: byte)
    requires InBounds(cfg, c)
    ensures !Step(cfg, c, x).Failed? ==> InBounds(cfg, Step(cfg, c, x).core)
  {
    if !(c.sawCr && x == LF) && c.eventBytes + 1 <= cfg.maxEventBytes {
      FinishLineInBounds(cfg, Charge(c));
    }
  }
}

/** The decoder as the stream runtime drives it: chunks, poll budgets and wake-ups. */
module SseDecoding {
  import opened Prelude
  import opened Errors
  import opened Sse
  import opened SseReference
  import opened SseMachine
  import opened SseInvariant

  /** One answer of the upstream byte stream; a stream that has no more answers is at its end. */
  datatype UpstreamPoll = NotReady | Chunk(bytes: Bytes) | Broke(error: LlmError)

  /** `woken`: the poll asked to be polled again before returning. */
  datatype Poll<+T> = Pending(woken: bool) | Ready(item: Option<T>)

  /** The bytes that count: all chunks up to an upstream failure or an oversized chunk. */
  function StreamBytes(cfg: Config, answers: seq<UpstreamPoll>): Bytes {
    if answers == [] then []
    else
      match answers[0]
      case NotReady => StreamBytes(cfg, answers[1..])
      case Chunk(bytes) => if |bytes| > cfg.maxChunkBytes then [] else bytes + StreamBytes(cfg, answers[1..])
      case Broke(_) => []
  }

  function StreamEnding(cfg: Config, answers: seq<UpstreamPoll>): Ending {
    if answers == [] then Eof
    else
      match answers[0]
      case NotReady => StreamEnding(cfg, answers[1..])
      case Chunk(bytes) => if |bytes| > cfg.maxChunkBytes then Oversized(|bytes|) else StreamEnding(cfg, answers[1..])
      case Broke(e) => Broken(e)
  }

  function AnswerWork(answers: seq<UpstreamPoll>): nat {
    if answers == [] then 0
    else 1 + (if answers[0].Chunk? then |answers[0].bytes| else 0) + AnswerWork(answers[1..])
  }

  /** Items still to come from the bytes at hand and the answers of the upstream. */
  function Future(cfg: Config, c: Core, unread: Bytes, answers: seq<UpstreamPoll>): seq<Item> {
    RunItems(cfg, c, unread + StreamBytes(cfg, answers), StreamEnding(cfg, answers))
  }

  lemma FutureByte(cfg: Config, c: Core, unread: Bytes, answers: seq<UpstreamPoll>)
    requires unread != []
    ensures Future(cfg, c, unread, answers) ==
            match Step(cfg, c, unread[0])
            case Running(c') => Future(cfg, c', unread[1..], answers)
            case Emitted(e, c') => [Ok(e)] + Future(cfg, c', unread[1..], answers)
            case Failed(e) => [Err(e)]
  {
    RegroupHead(unread, StreamBytes(cfg, answers));
  }

  lemma FutureAnswer(cfg: Config, c: Core, answers: seq<UpstreamPoll>)
    ensures Future(cfg, c, [], answers) ==
            if answers == [] then FinishEof(cfg, c)
            else
              match answers[0]
              case NotReady => Future(cfg, c, [], answers[1..])
              case Broke(e) => [Err(Upstream(e))]
              case Chunk(bytes) =>
                if |bytes| > cfg.maxChunkBytes
                then [Err(LimitExceeded(ChunkBytes, cfg.maxChunkBytes, |bytes|, SatAdd(c.lineNumber, 1)))]
                else Future(cfg, c, bytes, answers[1..])
  {
    EmptySides(StreamBytes(cfg, answers));
    if answers != [] { EmptySides(StreamBytes(cfg, answers[1..])); }
  }

  /** `after` is `before` without its first `k` answers. */
  ghost predicate Taken(before: seq<UpstreamPoll>, after: seq<UpstreamPoll>, k: nat) {
    k <= |before| && after == before[k..]
  }

  lemma TakeOne(before: seq<UpstreamPoll>, after: seq<UpstreamPoll>, k: nat)
    requires Taken(before, after, k) && after != []
    ensures Taken(before, after[1..], k + 1) && before[k] == after[0]
  {
  }

  /** The answers taken end with a `NotReady`. */
  ghost predicate LastAnswerNotReady(before: seq<UpstreamPoll>, after: seq<UpstreamPoll>) {
    exists k: nat :: Taken(before, after, k) && k > 0 && before[k - 1].NotReady?
  }

  class SseDecoder {
    const config: Config
    var upstream: seq<UpstreamPoll>
    var chunk: Option<Bytes>
    var chunkOffset: nat
    /** The ten parsing fields, `line` to `line_number`, kept in one record. */
    var core: Core
    var pending: Option<Item>
    var terminal: bool

    constructor (upstream: seq<UpstreamPoll>, config: Config)
      ensures Valid() && !terminal
      ensures this.config == config
      ensures Remaining() == Parse(config, StreamBytes(config, upstream), StreamEnding(config, upstream))
    {
      this.config := config;
      this.upstream := upstream;
      chunk, chunkOffset := None, 0;
      core, pending, terminal := INIT, None, false;
      new;
      EmptySides(StreamBytes(config, upstream));
      DecoderRefinesParse(config, StreamBytes(config, upstream), StreamEnding(config, upstream));
    }

    ghost predicate Valid()
      reads this
    {
      && (chunk.Some? ==> chunkOffset <= |chunk.value|)
      && (chunk.None? && !terminal ==> chunkOffset == 0)
      && (!terminal ==> InBounds(config, core))
    }

    /** The bytes of the current chunk that have not been looked at. */
    ghost function Unread(): Bytes
      reads this
      requires Valid()
    {
      if chunk.Some? then chunk.value[chunkOffset..] else []
    }

    /** Everything that polling this decoder to the end will still deliver. */
    ghost function Remaining(): seq<Item>
      reads this
      requires Valid()
    {
      var rest := if terminal then [] else Future(config, core, Unread(), upstream);
      if pending.Some? then [pending.value] + rest else rest
    }

    /** Input not consumed yet: bytes at hand and upstream answers. */
    ghost function Input(): nat
      reads this
      requires Valid()
    {
      |Unread()| + AnswerWork(upstream)
    }

    /** Strictly decreases with every poll until the stream is exhausted. */
    ghost function Work(): nat
      reads this
      requires Valid()
    {
      Input() + (if pending.Some? then 1 else 0) + if terminal then 0 else 1
    }

    /** The parsing fields show what the machine's transition yields. */
    ghost predicate Shows(o: Outcome)
      reads this
    {
      match o
      case Running(c) => !terminal && pending == None && core == c
      case Emitted(e, c) => !terminal && pending == Some(Ok(e)) && core == c
      case Failed(e) => terminal && pending == Some(Err(e))
    }

    method Fail(error: SseError)
      modifies this
      ensures Shows(Failed(error)) && chunk == None
      ensures upstream == old(upstream) && chunkOffset == old(chunkOffset)
    {
      core := core.(line := [], dataLines := []);
      chunk := None;
      pending := Some(Err(error));
      terminal := true;
    }

    method DispatchEvent()
      requires !terminal && pending == None
      modifies this`core, this`pending
      ensures Shows(Dispatch(old(core)))
    {
      if core.hasData {
        pending := Some(Ok(SseEvent(Join(core.dataLines, LF), core.eventType, core.lastEventId, core.retryMillis)));
      }
      core := core.(dataLines := [], eventType := None, retryMillis := None, hasData := false);
      core := core.(eventBytes := 0, fieldCount := 0);
    }

    method ReadField(text: Bytes)
      requires !terminal && pending == None && text != [] && text[0] != COLON
      modifies this`core
      ensures core == ApplyField(old(core), FieldOf(text))
    {
      var (field, value) := SplitField(text);
      if field == DATA {
        core := core.(hasData := true, dataLines := core.dataLines + [value]);
      } else if field == EVENT {
        core := core.(eventType := Some(value));
      } else if field == ID && NUL !in value {
        core := core.(lastEventId := Some(value));
      } else if field == RETRY {
        var retry := ParseRetry(value);
        if retry.Some? { core := core.(retryMillis := retry); }
      }
    }

    method FinishLineBuffer()
      requires !terminal && pending == None
      modifies this
      ensures Shows(FinishLine(config, old(core)))
      ensures upstream == old(upstream)
      ensures !terminal ==> chunk == old(chunk) && chunkOffset == old(chunkOffset)
      ensures terminal ==> chunk == None
    {
      core := core.(lineNumber := SatAdd(core.lineNumber, 1));
      var text := core.line;
      core := core.(line := []);
      if text == [] {
        DispatchEvent();
        return;
      }
      if !ValidUtf8(text) {
        Fail(InvalidUtf8(core.lineNumber));
        return;
      }
      if text[0] == COLON {
        return;
      }
      core := core.(fieldCount := core.fieldCount + 1);
      if config.maxFields.Some? && core.fieldCount > config.maxFields.value {
        Fail(LimitExceeded(Fields, config.maxFields.value, core.fieldCount, core.lineNumber));
        return;
      }
      ReadField(text);
    }

    method ProcessByte(x: byte)
      requires Valid() && !terminal && pending == None
      modifies this
      ensures Valid()
      ensures Shows(Step(config, old(core), x))
      ensures upstream == old(upstream)
      ensures !terminal ==> chunk == old(chunk) && chunkOffset == old(chunkOffset)
      ensures terminal ==> chunk == None
    {
      StepInBounds(config, core, x);
      if core.sawCr {
        core := core.(sawCr := false);
        if x == LF { return; }
      }
      core := core.(eventBytes := core.eventBytes + 1);
      if core.eventBytes > config.maxEventBytes {
        Fail(LimitExceeded(EventBytes, config.maxEventBytes, core.eventBytes, SatAdd(core.lineNumber, 1)));
        return;
      }
      if x == CR {
        FinishLineBuffer();
        core := core.(sawCr := true);
      } else if x == LF {
        FinishLineBuffer();
      } else {
        core := core.(line := core.line + [x]);
        if |core.line| > config.maxLineBytes {
          Fail(LimitExceeded(LineBytes, config.maxLineBytes, |core.line|, SatAdd(core.lineNumber, 1)));
        }
      }
    }

    method FinishEofBuffer()
      requires !terminal && pending == None
      modifies this
      ensures terminal
      ensures (if pending.Some? then [pending.value] else []) == FinishEof(config, old(core))
      ensures upstream == old(upstream)
      ensures chunk == None || (chunk == old(chunk) && chunkOffset == old(chunkOffset))
    {
      if core.line != [] {
        FinishLineBuffer();
      }
      if pending == None && !terminal {
        DispatchEvent();
      }
      terminal := true;
    }

    /** Takes the pending item, as every return of `PollNext` does. */
    method TakePending() returns (item: Option<Item>)
      requires Valid()
      modifies this`pending
      ensures pending == None && item == old(pending)
    {
      item := pending;
      pending := None;
    }

    /** Looks at the next byte of the chunk at hand. */
    method PollByte() returns (item: Option<Item>)
      requires Valid() && !terminal && pending == None && chunk.Some? && chunkOffset < |chunk.value|
      modifies this
      ensures Valid() && pending == None && upstream == old(upstream)
      ensures Input() < old(Input())
      ensures match item
              case Some(i) => old(Remaining()) == [i] + Remaining()
              case None => !terminal && Remaining() == old(Remaining())
    {
      FutureByte(config, core, Unread(), upstream);
      var x := chunk.value[chunkOffset];
      chunkOffset := chunkOffset + 1;
      ProcessByte(x);
      item := TakePending();
    }

    /** Takes the next upstream answer, or finishes at the end of the stream; `None` means a chunk came. */
    method PollUpstream() returns (r: Option<Poll<Item>>)
      requires Valid() && !terminal && pending == None && chunk == None
      modifies this
      ensures Valid() && pending == None
      ensures match r
              case Some(Ready(Some(i))) => terminal && old(Remaining()) == [i] && Input() <= old(Input())
              case Some(Ready(None)) => terminal && old(Remaining()) == [] && Input() <= old(Input())
              case Some(Pending(woken)) => !woken && !terminal && old(upstream) != [] && old(upstream)[0].NotReady?
              case None => !terminal && old(upstream) != []
      ensures !terminal && old(upstream) != [] ==>
                upstream == old(upstream)[1..] && Remaining() == old(Remaining()) && Input() < old(Input())
    {
      FutureAnswer(config, core, upstream);
      if upstream == [] {
        FinishEofBuffer();
        var item := TakePending();
        return Some(Ready(item));
      }
      var answer := upstream[0];
      upstream := upstream[1..];
      match answer {
        case NotReady =>
          return Some(Pending(false));
        case Broke(e) =>
          Fail(Upstream(e));
          var item := TakePending();
          return Some(Ready(item));
        case Chunk(bytes) =>
          if |bytes| > config.maxChunkBytes {
            Fail(LimitExceeded(ChunkBytes, config.maxChunkBytes, |bytes|, SatAdd(core.lineNumber, 1)));
            var item := TakePending();
            return Some(Ready(item));
          }
          if bytes != [] {
            chunk := Some(bytes);
          }
          return None;
      }
    }

    /**
     One poll. A ready item is the next one of the one-shot parse, nothing is lost or delivered
     twice around a `Pending`, and every `Pending` has consumed input: either the poll woke itself
     because a budget was used up, or the last upstream answer it took was `NotReady`.
     */
    method PollNext() returns (r: Poll<Item>)
      requires Valid()
      modifies this
      ensures Valid()
      ensures match r
              case Ready(Some(item)) => old(Remaining()) == [item] + Remaining()
              case Ready(None) => old(Remaining()) == [] == Remaining() && terminal && pending == None
              case Pending(_) => Remaining() == old(Remaining()) && Input() < old(Input())
      ensures r == Pending(false) ==> LastAnswerNotReady(old(upstream), upstream)
      ensures Work() <= old(Work()) && (r != Ready(None) ==> Work() < old(Work()))
      ensures old(terminal) ==> terminal && (old(pending) == None ==> r == Ready(None))
    {
      if pending.Some? {
        var item := TakePending();
        return Ready(item);
      }
      if terminal {
        return Ready(None);
      }
      r := PollInput();
    }

    /** The poll loop: bytes of the chunk at hand first, then the next upstream answer. */
    method PollInput() returns (r: Poll<Item>)
      requires Valid() && !terminal && pending == None
      modifies this
      ensures Valid() && pending == None
      ensures match r
              case Ready(Some(item)) => old(Remaining()) == [item] + Remaining()
                && (Input() < old(Input()) || (terminal && Input() <= old(Input())))
              case Ready(None) => old(Remaining()) == [] && terminal && Input() <= old(Input())
              case Pending(_) => !terminal && Remaining() == old(Remaining()) && Input() < old(Input())
      ensures r == Pending(false) ==> LastAnswerNotReady(old(upstream), upstream)
    {
      var bytesProcessed, chunksPolled := 0, 0;
      ghost var k := 0;
      while true
        invariant Valid() && !terminal && pending == None
        invariant Remaining() == old(Remaining())
        invariant Input() + bytesProcessed + chunksPolled <= old(Input())
        invariant Taken(old(upstream), upstream, k)
        decreases Input()
      {
        if chunk.Some? && chunkOffset < |chunk.value| {
          if bytesProcessed >= config.maxBytesPerPoll {
            return Pending(true);
          }
          bytesProcessed := bytesProcessed + 1;
          var item := PollByte();
          if item.Some? {
            return Ready(item);
          }
        } else {
          chunk := None;
          chunkOffset := 0;
          if chunksPolled >= config.maxChunksPerPoll {
            return Pending(true);
          }
          chunksPolled := chunksPolled + 1;
          if upstream != [] { TakeOne(old(upstream), upstream, k); }
          k := k + 1;
          var answer := PollUpstream();
          if answer.Some? {
            return answer.value;
          }
        }
      }
    }
  }

  /** Polls until the stream is exhausted. */
  method PollToEnd(decoder: SseDecoder) returns (items: seq<Item>)
    requires decoder.Valid()
    modifies decoder
    ensures decoder.Valid() && decoder.terminal && decoder.Remaining() == []
    ensures items == old(decoder.Remaining())
  {
    items := [];
    while true
      invariant decoder.Valid()
      invariant items + decoder.Remaining() == old(decoder.Remaining())
      decreases decoder.Work()
    {
      var r := decoder.PollNext();
      if r == Ready(None) { return; }
      if r.Ready? {
        Regroup(items, [r.item.value], decoder.Remaining());
        items := items + [r.item.value];
      }
    }
  }

  /** What an upstream decodes to: the one-shot parse of the bytes that count. */
  function Decoded(cfg: Config, answers: seq<UpstreamPoll>): seq<Item> {
    Parse(cfg, StreamBytes(cfg, answers), StreamEnding(cfg, answers))
  }

  /** A decoder delivers the one-shot parse of the concatenated chunks. */
  method Drain(config: Config, answers: seq<UpstreamPoll>) returns (items: seq<Item>)
    ensures items == Decoded(config, answers)
  {
    var decoder := new SseDecoder(answers, config);
    items := PollToEnd(decoder);
  }

  /** Two decoders with the same size limits whose upstreams carry the same bytes to the same end. */
  predicate SameDelivery(x: Config, a: seq<UpstreamPoll>, y: Config, b: seq<UpstreamPoll>) {
    SameLimits(x, y) && StreamBytes(x, a) == StreamBytes(y, b) && StreamEnding(x, a) == StreamEnding(y, b)
  }

  /** They decode alike, however the bytes were cut and delayed and whatever the poll budgets are. */
  lemma DeliveryIsInvisible(x: Config, a: seq<UpstreamPoll>, y: Config, b: seq<UpstreamPoll>)
    requires SameDelivery(x, a, y, b)
    ensures Decoded(x, a) == Decoded(y, b)
  {
    ParseIgnoresBudgets(x, y, StreamBytes(x, a), StreamEnding(x, a));
  }

  /** No upstream failure and no oversized chunk. */
  predicate Smooth(cfg: Config, answers: seq<UpstreamPoll>) {
    forall i :: 0 <= i < |answers| ==>
      !answers[i].Broke? && (answers[i].Chunk? ==> |answers[i].bytes| <= cfg.maxChunkBytes)
  }

  /** Smooth upstreams with the same chunk bytes decode alike under every chunking, delay and budget. */
  lemma ChunkingIsInvisible(x: Config, a: seq<UpstreamPoll>, y: Config, b: seq<UpstreamPoll>)
    requires SameLimits(x, y) && Smooth(x, a) && Smooth(y, b) && ChunksOf(a) == ChunksOf(b)
    ensures Decoded(x, a) == Decoded(y, b) == Parse(x, ChunksOf(a), Eof)
  {
    ChunksAreBytes(x, a);
    ChunksAreBytes(y, b);
    DeliveryIsInvisible(x, a, y, b);
  }

  /** All chunk bytes in order. */
  function ChunksOf(answers: seq<UpstreamPoll>): Bytes {
    if answers == [] then []
    else (if answers[0].Chunk? then answers[0].bytes else []) + ChunksOf(answers[1..])
  }

  lemma {:induction false} ChunksAreBytes(cfg: Config, a: seq<UpstreamPoll>)
    requires Smooth(cfg, a)
    ensures StreamBytes(cfg, a) == ChunksOf(a) && StreamEnding(cfg, a) == Eof
  {
    if a != [] {
      assert Smooth(cfg, a[1..]);
      ChunksAreBytes(cfg, a[1..]);
    }
  }
}
