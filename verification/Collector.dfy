/** The collector that folds an assistant event stream into one message. */
module Collecting {
  import opened Prelude
  import opened Errors
  import opened Domain
  import opened Usage
  import opened Events

  datatype OpenBlock =
    | OpenText(text: Bytes)
    | OpenThinking(text: Bytes, sealed: Option<Bytes>)
    | OpenRefusal(text: Bytes)
    | OpenToolCall(wireIndex: u32, id: Option<Bytes>, name: Bytes, arguments: Bytes)

  datatype CollectError = AfterDone | Violation | Truncated | StreamFailed(error: LlmError)

  /** What a `Start` event announces. */
  datatype Origin = Origin(localRequestId: Bytes, providerRequestId: Option<Bytes>, generationId: Option<Bytes>)

  datatype AssistantMessage = AssistantMessage(
    content: seq<ContentPart>,
    text: Bytes,
    usage: Option<CoreUsage>,
    usageDetails: Option<UsageDetails>,
    finishReason: FinishReason,
    origin: Option<Origin>)

  /** The buffer of an open block with steps `p`. */
  function BufferOf(p: seq<Step>): OpenBlock
    requires p != []
  {
    match p[0]
    case ToolCallStart(wire, id) => OpenToolCall(wire, id, NameDeltas(p), ArgumentDeltas(p))
    case ThinkingStart => OpenThinking(Deltas(p), Sealed(p))
    case RefusalStart => OpenRefusal(Deltas(p))
    case _ => OpenText(Deltas(p))
  }

  /** The buffer a starting block gets. */
  function Fresh(s: Step): OpenBlock {
    match s
    case ToolCallStart(wireIndex, id) => OpenToolCall(wireIndex, id, [], [])
    case ThinkingStart => OpenThinking([], None)
    case RefusalStart => OpenRefusal([])
    case _ => OpenText([])
  }

  /** A delta goes into a buffer of its own kind; a second opaque state or another wire index does not. */
  function Fill(block: OpenBlock, s: Step): Option<OpenBlock> {
    match (s, block)
    case (TextDelta(d), OpenText(text)) => Some(OpenText(text + d))
    case (ThinkingDelta(d), OpenThinking(text, sealed)) => Some(OpenThinking(text + d, sealed))
    case (ThinkingOpaque(state), OpenThinking(text, None)) => Some(OpenThinking(text, Some(state)))
    case (RefusalDelta(d), OpenRefusal(text)) => Some(OpenRefusal(text + d))
    case (ToolCallDelta(wire, name, arguments), OpenToolCall(wire', id, name', arguments')) =>
      if wire != wire' then None
      else Some(OpenToolCall(wire', id,
                             if name.Some? then name' + name.value else name',
                             if arguments.Some? then arguments' + arguments.value else arguments'))
    case _ => None
  }

  /** The part a buffer becomes; a tool call must end with what was announced and accumulated. */
  function Close(block: OpenBlock, s: Step): Option<ContentPart> {
    match (s, block)
    case (TextEnd, OpenText(text)) => Some(Text(text))
    case (ThinkingEnd, OpenThinking(text, sealed)) => Some(Thinking(text, sealed))
    case (RefusalEnd, OpenRefusal(text)) => Some(Refusal(text))
    case (ToolCallEnd(call), OpenToolCall(_, id, name, arguments)) =>
      if (id.Some? && id.value != call.id) || name != call.name || arguments != call.arguments then None
      else Some(ToolCallPart(call))
    case _ => None
  }

  // What the reports among `es` say; a well-formed stream never contradicts itself.

  function UsageOf(es: seq<AssistantEvent>): Option<CoreUsage> {
    if es == [] then None
    else if UsageOf(es[..|es| - 1]).Some? then UsageOf(es[..|es| - 1])
    else if es[|es| - 1].UsageReport? then Some(es[|es| - 1].usage) else None
  }

  function DetailsOf(es: seq<AssistantEvent>): Option<UsageDetails> {
    if es == [] then None
    else if DetailsOf(es[..|es| - 1]).Some? then DetailsOf(es[..|es| - 1])
    else if es[|es| - 1].DetailedUsage? then Some(es[|es| - 1].details) else None
  }

  function OriginOf(es: seq<AssistantEvent>): Option<Origin> {
    if es == [] then None
    else
      match es[|es| - 1]
      case Start(l, p, g) => Some(Origin(l, p, g))
      case _ => OriginOf(es[..|es| - 1])
  }

  /** The message a complete stream stands for. */
  function MessageOf(es: seq<AssistantEvent>): AssistantMessage
    requires HasDone(es)
  {
    var parts := PartsOf(es, Blocks(es));
    AssistantMessage(parts, TextOf(parts), UsageOf(es), DetailsOf(es), es[|es| - 1].finishReason, OriginOf(es))
  }

  // ---------------------------------------------------------------- what the block maps mean

  /** Started blocks are the indexes below `Blocks(h)`; each is open or ended. */
  ghost predicate Partitioned(h: seq<AssistantEvent>) {
    forall i: int ::
      if 0 <= i < Blocks(h) then IsOpen(Project(h, i)) || IsEnded(Project(h, i)) else Project(h, i) == []
  }

  function Get<K, V>(m: map<K, V>, k: K): Option<V> { if k in m then Some(m[k]) else None }

  /** A block is in the open map while it is open and in the content map once it ended. */
  ghost predicate HoldsAt(p: seq<Step>, buffer: Option<OpenBlock>, part: Option<ContentPart>) {
    && buffer == (if IsOpen(p) then Some(BufferOf(p)) else None)
    && part == (if IsEnded(p) then Some(PartOf(p)) else None)
  }

  ghost predicate Holds(h: seq<AssistantEvent>, open: map<u32, OpenBlock>, content: map<u32, ContentPart>) {
    forall i: u32 :: HoldsAt(Project(h, i), Get(open, i), Get(content, i))
  }

  lemma {:induction false} WellFormedPartitioned(h: seq<AssistantEvent>)
    requires WellFormed(h)
    ensures Partitioned(h)
  {
    if h != [] {
      var init, e := h[..|h| - 1], h[|h| - 1];
      WellFormedPartitioned(init);
      forall i: int
        ensures if 0 <= i < Blocks(h) then IsOpen(Project(h, i)) || IsEnded(Project(h, i)) else Project(h, i) == []
      {
        var p := Project(init, i);
        if e.Block? && e.index == i {
          AppendStep(p, e.step);
        } else {
          EmptySides(p);
        }
      }
    }
  }

  lemma HoldsOther(h: seq<AssistantEvent>, e: AssistantEvent, open: map<u32, OpenBlock>, content: map<u32, ContentPart>)
    requires Holds(h, open, content) && !e.Block?
    ensures Holds(h + [e], open, content)
  {
    Append(h, e);
    forall i: u32 ensures HoldsAt(Project(h + [e], i), Get(open, i), Get(content, i)) {
      EmptySides(Project(h, i));
    }
  }

  lemma StepHolds(p: seq<Step>, s: Step)
    requires if s.Starts() then p == [] else Continues(p, s)
    ensures HoldsAt(p + [s],
                    if s.Ends() then None else Some(BufferOf(p + [s])),
                    if s.Ends() then Some(PartOf(p + [s])) else None)
  {
    AppendStep(p, s);
  }

  lemma HoldsElsewhere(
    h: seq<AssistantEvent>, index: u32, s: Step,
    open: map<u32, OpenBlock>, content: map<u32, ContentPart>,
    open': map<u32, OpenBlock>, content': map<u32, ContentPart>)
    requires Holds(h, open, content)
    requires HoldsAt(Project(h, index) + [s], Get(open', index), Get(content', index))
    requires forall i: u32 :: i != index ==> Get(open', i) == Get(open, i) && Get(content', i) == Get(content, i)
    ensures Holds(h + [Block(index, s)], open', content')
  {
    Append(h, Block(index, s));
    forall i: u32 ensures HoldsAt(Project(h + [Block(index, s)], i), Get(open', i), Get(content', i)) {
      if i != index {
        EmptySides(Project(h, i));
        assert HoldsAt(Project(h, i), Get(open, i), Get(content, i));
      }
    }
  }

  /** One more step of a block: its buffer follows, or it moves to the content. */
  lemma HoldsBlock(
    h: seq<AssistantEvent>, index: u32, s: Step, open: map<u32, OpenBlock>, content: map<u32, ContentPart>)
    requires Holds(h, open, content) && Partitioned(h) && StepFollows(h, index, s)
    ensures var p := Project(h, index) + [s];
            Holds(h + [Block(index, s)],
                  if s.Ends() then open - {index} else open[index := BufferOf(p)],
                  if s.Ends() then content[index := PartOf(p)] else content)
  {
    var p := Project(h, index) + [s];
    StepHolds(Project(h, index), s);
    assert HoldsAt(Project(h, index), Get(open, index), Get(content, index));
    HoldsElsewhere(h, index, s, open, content,
                   if s.Ends() then open - {index} else open[index := BufferOf(p)],
                   if s.Ends() then content[index := PartOf(p)] else content);
  }

  /** A block that has not started is in neither map. */
  lemma Unstarted(h: seq<AssistantEvent>, index: u32, open: map<u32, OpenBlock>, content: map<u32, ContentPart>)
    requires Holds(h, open, content) && Partitioned(h) && index == Blocks(h)
    ensures Project(h, index) == [] && index !in open && index !in content
  {
    assert HoldsAt(Project(h, index), Get(open, index), Get(content, index));
  }

  predicate Claimable(wires: set<u32>, ids: set<Bytes>, s: Step) {
    s.ToolCallStart? ==> s.wireIndex !in wires && (s.id.Some? ==> s.id.value !in ids)
  }

  function WiresWith(wires: set<u32>, s: Step): set<u32> {
    if s.ToolCallStart? then wires + {s.wireIndex} else wires
  }

  function IdsWith(ids: set<Bytes>, s: Step): set<Bytes> {
    if s.ToolCallStart? && s.id.Some? then ids + {s.id.value} else ids
  }

  lemma StartIds(h: seq<AssistantEvent>, index: u32, s: Step)
    requires s.Starts()
    ensures var h' := h + [Block(index, s)];
            && Blocks(h') == Blocks(h) + 1
            && Wires(h') == WiresWith(Wires(h), s)
            && Ids(h') == IdsWith(Ids(h), s)
  {
    Append(h, Block(index, s));
  }

  /** What a start step needs and does; the index it needs is free. */
  lemma StartStep(
    h: seq<AssistantEvent>, index: u32, s: Step, open: map<u32, OpenBlock>, content: map<u32, ContentPart>)
    requires Holds(h, open, content) && Partitioned(h) && s.Starts()
    ensures StepFollows(h, index, s) <==>
              && index == Blocks(h) < U32_MAX && index !in open && index !in content
              && Claimable(Wires(h), Ids(h), s)
    ensures StepFollows(h, index, s) ==> Holds(h + [Block(index, s)], open[index := Fresh(s)], content)
  {
    if index == Blocks(h) { Unstarted(h, index, open, content); }
    if StepFollows(h, index, s) {
      HoldsBlock(h, index, s, open, content);
      FreshSpec(s);
    }
  }

  lemma FreshSpec(s: Step)
    requires s.Starts()
    ensures Fresh(s) == BufferOf([s]) && [] + [s] == [s]
  {
    AppendStep([], s);
  }

  lemma FillSpec(p: seq<Step>, s: Step)
    requires IsOpen(p) && !s.Starts() && !s.Ends()
    ensures Fill(BufferOf(p), s) == if Continues(p, s) then Some(BufferOf(p + [s])) else None
  {
    AppendStep(p, s);
  }

  lemma CloseSpec(p: seq<Step>, s: Step)
    requires IsOpen(p) && s.Ends()
    ensures Close(BufferOf(p), s) == if Continues(p, s) then Some(PartOf(p + [s])) else None
  {
    AppendStep(p, s);
  }

  lemma MiddleCondition(
    h: seq<AssistantEvent>, index: u32, s: Step, open: map<u32, OpenBlock>, content: map<u32, ContentPart>)
    requires Holds(h, open, content) && !s.Starts() && !s.Ends()
    ensures StepFollows(h, index, s) <==> index in open && Fill(open[index], s).Some?
    ensures StepFollows(h, index, s) ==>
              Fill(open[index], s).value == BufferOf(Project(h, index) + [s]) && IsOpen(Project(h, index) + [s])
  {
    assert HoldsAt(Project(h, index), Get(open, index), Get(content, index));
    if index in open { FillSpec(Project(h, index), s); }
  }

  /** What a middle step needs and does. */
  lemma MiddleStep(
    h: seq<AssistantEvent>, index: u32, s: Step, open: map<u32, OpenBlock>, content: map<u32, ContentPart>)
    requires Holds(h, open, content) && Partitioned(h) && !s.Starts() && !s.Ends()
    ensures StepFollows(h, index, s) <==> index in open && Fill(open[index], s).Some?
    ensures StepFollows(h, index, s) ==>
              Holds(h + [Block(index, s)], open[index := Fill(open[index], s).value], content)
    ensures var h' := h + [Block(index, s)]; Blocks(h') == Blocks(h) && Wires(h') == Wires(h) && Ids(h') == Ids(h)
  {
    MiddleCondition(h, index, s, open, content);
    if StepFollows(h, index, s) { HoldsBlock(h, index, s, open, content); }
    Append(h, Block(index, s));
  }

  lemma EndIds(h: seq<AssistantEvent>, index: u32, s: Step)
    requires StepFollows(h, index, s) && s.Ends()
    ensures var h' := h + [Block(index, s)];
            && Blocks(h') == Blocks(h) && Wires(h') == Wires(h)
            && Ids(h') == if s.ToolCallEnd? && Project(h, index)[0].id.None? then Ids(h) + {s.call.id} else Ids(h)
  {
    AppendClaims(h, Block(index, s));
    StartIdKnown(h, index);
    assert s.ToolCallEnd? && Project(h, index)[0].id.Some? ==> s.call.id in Ids(h);
  }

  lemma EndCondition(
    h: seq<AssistantEvent>, index: u32, s: Step, open: map<u32, OpenBlock>, content: map<u32, ContentPart>)
    requires Holds(h, open, content) && s.Ends()
    ensures index in open ==> index !in content && open[index] == BufferOf(Project(h, index))
    ensures StepFollows(h, index, s) <==>
              && index in open && Close(open[index], s).Some?
              && (s.ToolCallEnd? && open[index].id.None? ==> s.call.id !in Ids(h))
    ensures StepFollows(h, index, s) ==> Close(open[index], s).value == PartOf(Project(h, index) + [s])
  {
    var p := Project(h, index);
    assert HoldsAt(p, Get(open, index), Get(content, index));
    if index in open { CloseSpec(p, s); }
  }

  lemma EndEffect(
    h: seq<AssistantEvent>, index: u32, s: Step, open: map<u32, OpenBlock>, content: map<u32, ContentPart>)
    requires Holds(h, open, content) && Partitioned(h) && s.Ends() && StepFollows(h, index, s) && index in open
    requires Close(open[index], s) == Some(PartOf(Project(h, index) + [s]))
             && open[index] == BufferOf(Project(h, index))
    ensures Holds(h + [Block(index, s)], open - {index}, content[index := Close(open[index], s).value])
  {
    HoldsBlock(h, index, s, open, content);
  }

  /** What an end step needs and does; an id that was not announced must be new. */
  lemma EndStep(h: seq<AssistantEvent>, index: u32, s: Step, open: map<u32, OpenBlock>, content: map<u32, ContentPart>)
    requires Holds(h, open, content) && Partitioned(h) && s.Ends()
    ensures index in open ==> index !in content
    ensures StepFollows(h, index, s) <==>
              && index in open && Close(open[index], s).Some?
              && (s.ToolCallEnd? && open[index].id.None? ==> s.call.id !in Ids(h))
    ensures StepFollows(h, index, s) ==>
              && Holds(h + [Block(index, s)], open - {index}, content[index := Close(open[index], s).value])
              && var h' := h + [Block(index, s)];
              && Blocks(h') == Blocks(h) && Wires(h') == Wires(h)
              && Ids(h') == (if s.ToolCallEnd? && open[index].id.None? then Ids(h) + {s.call.id} else Ids(h))
  {
    EndCondition(h, index, s, open, content);
    if StepFollows(h, index, s) {
      EndEffect(h, index, s, open, content);
      EndIds(h, index, s);
    }
  }

  /** An event outside the blocks leaves them alone. */
  lemma OtherStep(h: seq<AssistantEvent>, e: AssistantEvent, open: map<u32, OpenBlock>, content: map<u32, ContentPart>)
    requires Holds(h, open, content) && !e.Block?
    ensures var h' := h + [e];
            && Holds(h', open, content) && Blocks(h') == Blocks(h) && Wires(h') == Wires(h) && Ids(h') == Ids(h)
            && WellFormed(h') == (WellFormed(h) && Follows(h, e))
  {
    Append(h, e);
    HoldsOther(h, e, open, content);
  }

  /** The collector's terminal check is the grammar's. */
  lemma DoneCondition(h: seq<AssistantEvent>, open: map<u32, OpenBlock>, content: map<u32, ContentPart>)
    requires Holds(h, open, content) && Partitioned(h) && Blocks(h) <= U32_MAX
    ensures open == map[] <==> AllEnded(h)
    ensures open == map[] ==> (content == map[] <==> Blocks(h) == 0)
    ensures open == map[] ==> ((exists i :: i in content && content[i].ToolCallPart?) <==> HasTool(h))
  {
    assert forall i: u32 :: HoldsAt(Project(h, i), Get(open, i), Get(content, i));
    if open == map[] {
      forall i: int | 0 <= i < Blocks(h) ensures IsEnded(Project(h, i)) {
        assert Get(open, i as u32) == None;
      }
    } else {
      var i :| i in open;
      assert Get(open, i).Some?;
      assert !IsEnded(Project(h, i));
    }
    if open == map[] {
      forall i: u32 ensures i in content <==> 0 <= i < Blocks(h) {
        assert HoldsAt(Project(h, i), Get(open, i), Get(content, i));
      }
      if Blocks(h) > 0 { assert 0 in content; }
      forall i: u32 | i in content ensures content[i] == PartOf(Project(h, i)) {
        assert HoldsAt(Project(h, i), Get(open, i), Get(content, i));
      }
      if HasTool(h) {
        var i :| 0 <= i < Blocks(h) && PartOf(Project(h, i)).ToolCallPart?;
        assert (i as u32) in content && content[i as u32].ToolCallPart?;
      }
    }
  }

  lemma ReportsAppend(h: seq<AssistantEvent>, e: AssistantEvent)
    ensures UsageOf(h + [e]) == if UsageOf(h).Some? || !e.UsageReport? then UsageOf(h) else Some(e.usage)
    ensures DetailsOf(h + [e]) == if DetailsOf(h).Some? || !e.DetailedUsage? then DetailsOf(h) else Some(e.details)
    ensures HasDone(h + [e]) == e.Done? && (h + [e])[|h|] == e
    ensures OriginOf(h + [e]) ==
            if e.Start? then Some(Origin(e.localRequestId, e.providerRequestId, e.generationId)) else OriginOf(h)
  {
    TakeDrop(h, [e]);
  }

  /** In a well-formed stream all reports agree with the first one. */
  lemma {:induction false} ReportsAgree(h: seq<AssistantEvent>)
    requires WellFormed(h)
    ensures forall k :: 0 <= k < |h| ==> h[k].UsageReport? ==> UsageOf(h) == Some(h[k].usage)
    ensures forall k :: 0 <= k < |h| ==> h[k].DetailedUsage? ==> DetailsOf(h) == Some(h[k].details)
    ensures UsageOf(h).Some? ==> exists k :: 0 <= k < |h| && h[k].UsageReport? && h[k].usage == UsageOf(h).value
    ensures DetailsOf(h).Some? ==> exists k :: 0 <= k < |h| && h[k].DetailedUsage? && h[k].details == DetailsOf(h).value
    ensures OriginOf(h).Some? <==> exists k :: 0 <= k < |h| && h[k].Start?
  {
    if h != [] {
      var init := h[..|h| - 1];
      ReportsAgree(init);
      assert forall k :: 0 <= k < |init| ==> h[k] == init[k];
    }
  }

  // ---------------------------------------------------------------- the collector

  class Collector {
    var started: bool
    var done: bool
    var nextContentIndex: u32
    var open: map<u32, OpenBlock>
    var content: map<u32, ContentPart>
    var toolWireIndexes: set<u32>
    var toolCallIds: set<Bytes>
    var usage: Option<CoreUsage>
    var usageDetails: Option<UsageDetails>
    var finishReason: Option<FinishReason>
    var origin: Option<Origin>
    /** The events accepted so far. */
    ghost var history: seq<AssistantEvent>

    constructor ()
      ensures Valid() && history == []
    {
      started, done, nextContentIndex := false, false, 0;
      open, content, toolWireIndexes, toolCallIds := map[], map[], {}, {};
      usage, usageDetails, finishReason, origin := None, None, None, None;
      history := [];
    }

    /** Every field is determined by the accepted events, which are well-formed. */
    ghost predicate Valid()
      reads this
    {
      && WellFormed(history)
      && BlocksValid()
      && ReportsValid()
    }

    ghost predicate BlocksValid()
      reads this
    {
      && nextContentIndex == Blocks(history)
      && Holds(history, open, content)
      && toolWireIndexes == Wires(history)
      && toolCallIds == Ids(history)
    }

    ghost predicate ReportsValid()
      reads this
    {
      && done == HasDone(history)
      && finishReason == (if HasDone(history) then Some(history[|history| - 1].finishReason) else None)
      && usage == UsageOf(history)
      && usageDetails == DetailsOf(history)
      && origin == OriginOf(history)
      && started == origin.Some?
    }

    /** The block can start: contiguous index, not seen before, and the counter does not overflow. */
    method StartBlock(index: u32, block: OpenBlock) returns (ok: bool)
      modifies this`nextContentIndex, this`open
      ensures ok <==> index == old(nextContentIndex) && index !in old(open) && index !in content && index < 0xFFFF_FFFF
      ensures ok ==> nextContentIndex == old(nextContentIndex) + 1 && open == old(open)[index := block]
    {
      if index != nextContentIndex || index in open || index in content {
        return false;
      }
      if nextContentIndex == 0xFFFF_FFFF {
        return false;
      }
      nextContentIndex := nextContentIndex + 1;
      open := open[index := block];
      return true;
    }

    /** A tool call claims its wire index and, if it is announced, its id; other blocks claim nothing. */
    method Claim(s: Step) returns (ok: bool)
      modifies this`toolWireIndexes, this`toolCallIds
      ensures ok <==> Claimable(old(toolWireIndexes), old(toolCallIds), s)
      ensures ok ==>
                && toolWireIndexes == WiresWith(old(toolWireIndexes), s)
                && toolCallIds == IdsWith(old(toolCallIds), s)
    {
      if !s.ToolCallStart? {
        return true;
      }
      if s.wireIndex in toolWireIndexes {
        return false;
      }
      toolWireIndexes := toolWireIndexes + {s.wireIndex};
      if s.id.Some? {
        if s.id.value in toolCallIds {
          return false;
        }
        toolCallIds := toolCallIds + {s.id.value};
      }
      return true;
    }

    method AcceptStart(index: u32, s: Step) returns (ok: bool)
      requires Partitioned(history) && BlocksValid() && s.Starts()
      modifies this`nextContentIndex, this`open, this`toolWireIndexes, this`toolCallIds, this`history
      ensures ok <==> StepFollows(old(history), index, s)
      ensures ok ==> history == old(history) + [Block(index, s)] && BlocksValid()
    {
      StartStep(history, index, s, open, content);
      StartIds(history, index, s);
      ok := Claim(s);
      if !ok {
        return;
      }
      ok := StartBlock(index, Fresh(s));
      if ok {
        history := history + [Block(index, s)];
      }
    }

    method AcceptMiddle(index: u32, s: Step) returns (ok: bool)
      requires Partitioned(history) && BlocksValid() && !s.Starts() && !s.Ends()
      modifies this`open, this`history
      ensures ok <==> StepFollows(old(history), index, s)
      ensures ok ==> history == old(history) + [Block(index, s)] && BlocksValid()
    {
      MiddleStep(history, index, s, open, content);
      if index !in open {
        return false;
      }
      var block := Fill(open[index], s);
      if block.None? {
        return false;
      }
      open := open[index := block.value];
      history := history + [Block(index, s)];
      return true;
    }

    method AcceptEnd(index: u32, s: Step) returns (ok: bool)
      requires Partitioned(history) && BlocksValid() && s.Ends()
      modifies this`open, this`content, this`toolCallIds, this`history
      ensures ok <==> StepFollows(old(history), index, s)
      ensures ok ==> history == old(history) + [Block(index, s)] && BlocksValid()
    {
      EndStep(history, index, s, open, content);
      if index !in open {
        return false;
      }
      assert index !in content; // an open block has no part yet, so it cannot end twice
      var block := open[index];
      open := open - {index};
      if s.ToolCallEnd? && block.OpenToolCall? && block.id.None? {
        if s.call.id in toolCallIds {
          return false;
        }
        toolCallIds := toolCallIds + {s.call.id};
      }
      var part := Close(block, s);
      if part.None? {
        return false;
      }
      content := content[index := part.value];
      history := history + [Block(index, s)];
      return true;
    }

    method AcceptStep(index: u32, s: Step) returns (ok: bool)
      requires Partitioned(history) && BlocksValid()
      modifies this`nextContentIndex, this`open, this`content, this`toolWireIndexes, this`toolCallIds, this`history
      ensures ok <==> StepFollows(old(history), index, s)
      ensures ok ==> history == old(history) + [Block(index, s)] && BlocksValid()
    {
      if s.Starts() {
        ok := AcceptStart(index, s);
      } else if s.Ends() {
        ok := AcceptEnd(index, s);
      } else {
        ok := AcceptMiddle(index, s);
      }
    }

    method AcceptBlock(index: u32, s: Step) returns (ok: bool)
      requires Valid() && !done
      modifies this
      ensures ok <==> StepFollows(old(history), index, s)
      ensures ok ==> history == old(history) + [Block(index, s)] && Valid()
    {
      WellFormedPartitioned(history);
      ReportsAppend(history, Block(index, s));
      Append(history, Block(index, s));
      ok := AcceptStep(index, s);
    }

    /** Accepts `e` exactly when the grammar lets it follow the accepted events. */
    method Accept(e: AssistantEvent) returns (r: Result<(), CollectError>)
      requires Valid()
      modifies this
      ensures r.Ok? <==> Follows(old(history), e)
      ensures r.Ok? ==> Valid() && history == old(history) + [e]
      ensures r.Err? ==> r.error == if old(done) then AfterDone else Violation
    {
      if done {
        return Err(AfterDone);
      }
      var ok;
      if e.Block? {
        ok := AcceptBlock(e.index, e.step);
      } else {
        ok := AcceptOther(e);
      }
      return if ok then Ok(()) else Err(Violation);
    }

    method AcceptOther(e: AssistantEvent) returns (ok: bool)
      requires Valid() && !done && !e.Block?
      modifies this
      ensures ok <==> Follows(old(history), e)
      ensures ok ==> Valid() && history == old(history) + [e]
    {
      OtherStep(history, e, open, content);
      ok := AcceptReport(e);
    }

    /** The terminal check: nothing open, something collected, and a matching reason. */
    method MayFinish(reason: FinishReason) returns (ok: bool)
      requires Valid() && !done
      ensures ok <==> Follows(history, Done(reason))
    {
      WellFormedPartitioned(history);
      DoneCondition(history, open, content);
      if open != map[] { return false; }
      if content == map[] { return false; }
      var hasToolCall := exists i :: i in content && content[i].ToolCallPart?;
      return reason.ToolCalls? == hasToolCall;
    }

    /** Events outside the content blocks. */
    method AcceptReport(e: AssistantEvent) returns (ok: bool)
      requires Valid() && !done && !e.Block?
      modifies this`started, this`origin, this`usage, this`usageDetails, this`done, this`finishReason, this`history
      ensures ok <==> Follows(old(history), e)
      ensures ok ==> history == old(history) + [e] && ReportsValid()
    {
      ReportsAgree(history);
      ReportsAppend(history, e);
      match e {
        case Start(localId, providerId, generationId) =>
          if started || nextContentIndex != 0 { return false; }
          started := true;
          origin := Some(Origin(localId, providerId, generationId));
        case UsageReport(u) =>
          if usage.Some? && usage.value != u { return false; }
          usage := Some(u);
        case DetailedUsage(d) =>
          if usageDetails.Some? && usageDetails.value != d { return false; }
          usageDetails := Some(d);
        case Done(reason) =>
          var complete := MayFinish(reason);
          if !complete { return false; }
          done := true;
          finishReason := Some(reason);
      }
      history := history + [e];
      return true;
    }

    /** The message of the accepted events, or `Truncated` when `Done` never came. */
    method Finish() returns (r: Result<AssistantMessage, CollectError>)
      requires Valid()
      ensures r == if HasDone(history) then Ok(MessageOf(history)) else Err(Truncated)
    {
      if !done {
        return Err(Truncated);
      }
      DoneEndsAll(history);
      var parts, text := InOrder(content, nextContentIndex, history, open);
      return Ok(AssistantMessage(parts, text, usage, usageDetails, finishReason.value, origin));
    }
  }

  /** The collected parts and their text in index order. */
  method InOrder(content: map<u32, ContentPart>, n: u32, ghost h: seq<AssistantEvent>, ghost open: map<u32, OpenBlock>)
    returns (parts: seq<ContentPart>, text: Bytes)
    requires Holds(h, open, content) && AllEnded(h) && n == Blocks(h)
    ensures parts == PartsOf(h, n) && text == TextOf(parts)
  {
    parts, text := [], [];
    for i := 0 to n
      invariant parts == PartsOf(h, i) && text == TextOf(parts)
    {
      EndedPart(h, i, open, content);
      PartsNext(h, i, content[i]);
      parts := parts + [content[i]];
      if content[i].Text? { text := text + content[i].text; } else { EmptySides(text); }
    }
  }

  lemma EndedPart(h: seq<AssistantEvent>, i: u32, open: map<u32, OpenBlock>, content: map<u32, ContentPart>)
    requires Holds(h, open, content) && AllEnded(h) && i < Blocks(h)
    ensures i in content && content[i] == PartOf(Project(h, i))
  {
    assert HoldsAt(Project(h, i), Get(open, i), Get(content, i));
  }

  lemma PartsNext(h: seq<AssistantEvent>, i: nat, part: ContentPart)
    requires part == PartOf(Project(h, i))
    ensures PartsOf(h, i + 1) == PartsOf(h, i) + [part]
    ensures TextOf(PartsOf(h, i + 1)) == TextOf(PartsOf(h, i)) + if part.Text? then part.text else []
  {
    assert PartsOf(h, i + 1) == PartsOf(h, i) + [part];
    TakeDrop(PartsOf(h, i), [part]);
  }

  /** An id announced at the start of a call is among the known ids. */
  lemma {:induction false} StartIdKnown(h: seq<AssistantEvent>, i: u32)
    ensures var p := Project(h, i); p != [] && p[0].ToolCallStart? && p[0].id.Some? ==> p[0].id.value in Ids(h)
  {
    if h != [] {
      var init, e := h[..|h| - 1], h[|h| - 1];
      StartIdKnown(init, i);
    }
  }

  lemma DoneEndsAll(h: seq<AssistantEvent>)
    requires Complete(h)
    ensures AllEnded(h) && Blocks(h) > 0
  {
    var init, e := h[..|h| - 1], h[|h| - 1];
    forall i ensures Project(h, i) == Project(init, i) {
      EmptySides(Project(init, i));
    }
  }

  /** What is wrong with the `k`-th item after the events before it, if anything. */
  function Fault(items: seq<Result<AssistantEvent, LlmError>>, k: nat): Option<CollectError>
    requires k < |items|
  {
    var before := EventsOf(items[..k]);
    if items[k].Err? then Some(StreamFailed(items[k].error))
    else if Follows(before, items[k].value) then None
    else Some(if HasDone(before) then AfterDone else Violation)
  }

  /** The verdict on the items from the `k`-th on, when the ones before it were accepted. */
  function VerdictFrom(items: seq<Result<AssistantEvent, LlmError>>, k: nat): Result<AssistantMessage, CollectError>
    requires k <= |items|
    decreases |items| - k
  {
    if k == |items| then
      if HasDone(EventsOf(items)) then Ok(MessageOf(EventsOf(items))) else Err(Truncated)
    else if Fault(items, k).Some? then Err(Fault(items, k).value)
    else VerdictFrom(items, k + 1)
  }

  /** The first faulty item decides the error. */
  lemma {:induction false} FirstFaultDecides(items: seq<Result<AssistantEvent, LlmError>>, k: nat, from: nat)
    requires from <= k < |items| && Fault(items, k).Some? && forall j :: from <= j < k ==> Fault(items, j).None?
    ensures VerdictFrom(items, from) == Err(Fault(items, k).value)
    decreases k - from
  {
    if from < k { FirstFaultDecides(items, k, from + 1); }
  }

  /** Without a fault only a missing `Done` is an error. */
  lemma {:induction false} FaultlessIsComplete(items: seq<Result<AssistantEvent, LlmError>>, from: nat)
    requires from <= |items| && forall j :: from <= j < |items| ==> Fault(items, j).None?
    ensures VerdictFrom(items, from) ==
            if HasDone(EventsOf(items)) then Ok(MessageOf(EventsOf(items))) else Err(Truncated)
    decreases |items| - from
  {
    if from < |items| { FaultlessIsComplete(items, from + 1); }
  }

  /** Collects a stream, item by item, up to the first fault. */
  method Collect(items: seq<Result<AssistantEvent, LlmError>>) returns (r: Result<AssistantMessage, CollectError>)
    ensures r == VerdictFrom(items, 0)
  {
    var collector := new Collector();
    var k := 0;
    while k < |items|
      invariant 0 <= k <= |items|
      invariant collector.Valid() && fresh(collector)
      invariant collector.history == EventsOf(items[..k])
      invariant VerdictFrom(items, 0) == VerdictFrom(items, k)
    {
      if items[k].Err? {
        return Err(StreamFailed(items[k].error));
      }
      EventsOfTake(items, k);
      var accepted := collector.Accept(items[k].value);
      if accepted.Err? {
        return Err(accepted.error);
      }
      k := k + 1;
    }
    assert items[..k] == items;
    r := collector.Finish();
  }

  ghost predicate AllOk(items: seq<Result<AssistantEvent, LlmError>>) { forall k :: 0 <= k < |items| ==> items[k].Ok? }

  /** What a verdict says about the whole stream. */
  ghost predicate Justified(items: seq<Result<AssistantEvent, LlmError>>, r: Result<AssistantMessage, CollectError>) {
    && (r.Ok? <==> AllOk(items) && Complete(EventsOf(items)))
    && (r.Ok? ==> r.value == MessageOf(EventsOf(items)))
    && (r == Err(AfterDone) ==> exists j :: 0 <= j < |items| - 1 && items[j].Ok? && items[j].value.Done?)
    && (r == Err(Truncated) ==> AllOk(items) && !(items != [] && items[|items| - 1].value.Done?))
    && (r.Err? && r.error.StreamFailed? ==> exists j :: 0 <= j < |items| && items[j] == Err(r.error.error))
  }

  lemma FaultJustified(items: seq<Result<AssistantEvent, LlmError>>, k: nat)
    requires k < |items| && (forall j :: 0 <= j < k ==> items[j].Ok?) && Fault(items, k).Some?
    ensures Justified(items, Err(Fault(items, k).value))
  {
    LastEvent(items, k);
    if items[k].Ok? { NextEvent(items, k); }
  }

  lemma EndJustified(items: seq<Result<AssistantEvent, LlmError>>)
    requires AllOk(items) && WellFormed(EventsOf(items))
    ensures Justified(items, VerdictFrom(items, |items|))
  {
    LastEvent(items, |items|);
    assert items[..|items|] == items;
  }

  lemma FaultlessPrefix(items: seq<Result<AssistantEvent, LlmError>>, k: nat)
    requires k < |items| && WellFormed(EventsOf(items[..k])) && Fault(items, k).None?
    ensures items[k].Ok? && WellFormed(EventsOf(items[..k + 1]))
  {
    EventsOfTake(items, k);
    Append(EventsOf(items[..k]), items[k].value);
  }

  /** A stream is collected exactly when all items are events that form a complete stream; errors are earned. */
  lemma {:induction false} VerdictIsJustified(items: seq<Result<AssistantEvent, LlmError>>, from: nat)
    requires from <= |items| && (forall j :: 0 <= j < from ==> items[j].Ok?) && WellFormed(EventsOf(items[..from]))
    ensures Justified(items, VerdictFrom(items, from))
    decreases |items| - from
  {
    if from == |items| {
      assert items[..from] == items;
      EndJustified(items);
    } else if Fault(items, from).Some? {
      FaultJustified(items, from);
    } else {
      FaultlessPrefix(items, from);
      VerdictIsJustified(items, from + 1);
    }
  }

  lemma LastEvent(items: seq<Result<AssistantEvent, LlmError>>, k: nat)
    requires k <= |items| && forall j :: 0 <= j < k ==> items[j].Ok?
    ensures HasDone(EventsOf(items[..k])) <==> k > 0 && items[k - 1].value.Done?
  {
    if k > 0 { EventsOfTake(items, k - 1); }
  }

  /** The events of the leading `Ok` items. */
  function EventsOf(items: seq<Result<AssistantEvent, LlmError>>): seq<AssistantEvent> {
    if items == [] then []
    else
      var last := items[|items| - 1];
      EventsOf(items[..|items| - 1]) + if last.Ok? then [last.value] else []
  }

  lemma EventsOfTake(items: seq<Result<AssistantEvent, LlmError>>, k: nat)
    requires k < |items| && items[k].Ok?
    ensures EventsOf(items[..k + 1]) == EventsOf(items[..k]) + [items[k].value]
  {
    TakeNext(items, k);
  }

  lemma NextEvent(items: seq<Result<AssistantEvent, LlmError>>, k: nat)
    requires k < |items| && items[k].Ok?
    ensures EventsOf(items[..k + 1]) == EventsOf(items[..k]) + [items[k].value]
    ensures (forall j :: 0 <= j < |items| ==> items[j].Ok?) && WellFormed(EventsOf(items)) ==>
              Follows(EventsOf(items[..k]), items[k].value)
  {
    EventsOfTake(items, k);
    PrefixWellFormed(items, k + 1);
    Append(EventsOf(items[..k]), items[k].value);
  }

  /** A well-formed stream is well-formed up to every point. */
  lemma {:induction false} PrefixWellFormed(items: seq<Result<AssistantEvent, LlmError>>, k: nat)
    requires k <= |items|
    ensures (forall j :: 0 <= j < |items| ==> items[j].Ok?) && WellFormed(EventsOf(items)) ==>
              WellFormed(EventsOf(items[..k]))
    decreases |items|
  {
    if k == |items| {
      assert items[..k] == items;
    } else {
      var init := items[..|items| - 1];
      assert init[..k] == items[..k];
      PrefixWellFormed(init, k);
      if items[|items| - 1].Ok? { Append(EventsOf(init), items[|items| - 1].value); }
    }
  }
}
