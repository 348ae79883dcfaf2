/**
 The grammar of assistant event streams: which events may follow which, and what message a
 complete stream stands for. Blocks may be open at the same time and their events interleave.
 */
module Events {
  import opened Prelude
  import opened Domain
  import opened Usage

  datatype CoreUsage = CoreUsage(inputTokens: u64, outputTokens: u64, totalTokens: u64)

  datatype FinishReason = Stop | Length | ContentFilter | ToolCalls | UnknownReason(text: Bytes)

  /** What an event does to the content block it is addressed to. */
  datatype Step =
    | TextStart
    | TextDelta(delta: Bytes)
    | TextEnd
    | ThinkingStart
    | ThinkingDelta(delta: Bytes)
    | ThinkingOpaque(state: Bytes)
    | ThinkingEnd
    | RefusalStart
    | RefusalDelta(delta: Bytes)
    | RefusalEnd
    | ToolCallStart(wireIndex: u32, id: Option<Bytes>)
    | ToolCallDelta(wireIndex: u32, nameDelta: Option<Bytes>, argumentsDelta: Option<Bytes>)
    | ToolCallEnd(call: ToolCall)
  {
    predicate Starts() { TextStart? || ThinkingStart? || RefusalStart? || ToolCallStart? }
    predicate Ends() { TextEnd? || ThinkingEnd? || RefusalEnd? || ToolCallEnd? }

    function Kind(): Kind {
      match this
      case TextStart | TextDelta(_) | TextEnd => TextKind
      case ThinkingStart | ThinkingDelta(_) | ThinkingOpaque(_) | ThinkingEnd => ThinkingKind
      case RefusalStart | RefusalDelta(_) | RefusalEnd => RefusalKind
      case ToolCallStart(_, _) | ToolCallDelta(_, _, _) | ToolCallEnd(_) => ToolKind
    }
  }

  datatype Kind = TextKind | ThinkingKind | RefusalKind | ToolKind

  /** The block events share one constructor: the content index and the step. */
  datatype AssistantEvent =
    | Start(localRequestId: Bytes, providerRequestId: Option<Bytes>, generationId: Option<Bytes>)
    | Block(index: u32, step: Step)
    | UsageReport(usage: CoreUsage)
    | DetailedUsage(details: UsageDetails)
    | Done(finishReason: FinishReason)

  predicate StartsBlock(e: AssistantEvent) { e.Block? && e.step.Starts() }

  /** The steps of block `i`, in order. */
  function Project(es: seq<AssistantEvent>, i: int): seq<Step> {
    if es == [] then [] else Project(es[..|es| - 1], i) + StepAt(es[|es| - 1], i)
  }

  function StepAt(e: AssistantEvent, i: int): seq<Step> { if e.Block? && e.index == i then [e.step] else [] }

  /** How many blocks were started. */
  function Blocks(es: seq<AssistantEvent>): nat {
    if es == [] then 0 else Blocks(es[..|es| - 1]) + if StartsBlock(es[|es| - 1]) then 1 else 0
  }

  /** Wire indexes claimed by tool calls. */
  function Wires(es: seq<AssistantEvent>): set<u32> {
    if es == [] then {} else Wires(es[..|es| - 1]) + NewWires(es[|es| - 1])
  }

  function NewWires(e: AssistantEvent): set<u32> { if e.Block? then StepWires(e.step) else {} }

  function StepWires(s: Step): set<u32> { if s.ToolCallStart? then {s.wireIndex} else {} }

  /** Tool call ids seen so far, at the start or at the end of a call. */
  function Ids(es: seq<AssistantEvent>): set<Bytes> {
    if es == [] then {} else Ids(es[..|es| - 1]) + NewIds(es[|es| - 1])
  }

  function NewIds(e: AssistantEvent): set<Bytes> { if e.Block? then StepIds(e.step) else {} }

  function StepIds(s: Step): set<Bytes> {
    if s.ToolCallStart? && s.id.Some? then {s.id.value}
    else if s.ToolCallEnd? then {s.call.id}
    else {}
  }

  // ---------------------------------------------------------------- one block

  /** Text a block has received: all its deltas in order. */
  function Deltas(p: seq<Step>): Bytes {
    if p == [] then []
    else
      var s := p[|p| - 1];
      Deltas(p[..|p| - 1]) + if s.TextDelta? || s.ThinkingDelta? || s.RefusalDelta? then s.delta else []
  }

  function NameDeltas(p: seq<Step>): Bytes {
    if p == [] then []
    else
      var s := p[|p| - 1];
      NameDeltas(p[..|p| - 1]) + if s.ToolCallDelta? && s.nameDelta.Some? then s.nameDelta.value else []
  }

  function ArgumentDeltas(p: seq<Step>): Bytes {
    if p == [] then []
    else
      var s := p[|p| - 1];
      ArgumentDeltas(p[..|p| - 1]) + if s.ToolCallDelta? && s.argumentsDelta.Some? then s.argumentsDelta.value else []
  }

  /** The opaque state attached to a thinking block. */
  function Sealed(p: seq<Step>): Option<Bytes> {
    if p == [] then None
    else if p[|p| - 1].ThinkingOpaque? then Some(p[|p| - 1].state)
    else Sealed(p[..|p| - 1])
  }

  predicate IsOpen(p: seq<Step>) { p != [] && p[0].Starts() && !p[|p| - 1].Ends() }

  predicate IsEnded(p: seq<Step>) { p != [] && p[0].Starts() && p[|p| - 1].Ends() }

  /** Whether an open block with steps `p` may go on with the step `s`. */
  predicate Continues(p: seq<Step>, s: Step) {
    && IsOpen(p)
    && !s.Starts() && s.Kind() == p[0].Kind()
    && (s.ThinkingOpaque? ==> Sealed(p) == None)
    && (s.ToolCallDelta? ==> s.wireIndex == p[0].wireIndex)
    && (s.ToolCallEnd? ==>
          && (p[0].id.Some? ==> p[0].id.value == s.call.id)
          && s.call.name == NameDeltas(p)
          && s.call.arguments == ArgumentDeltas(p))
  }

  /** The content part an ended block stands for. */
  function PartOf(p: seq<Step>): ContentPart {
    if p == [] then Text([])
    else
      match p[|p| - 1]
      case ToolCallEnd(call) => ToolCallPart(call)
      case ThinkingEnd => Thinking(Deltas(p), Sealed(p))
      case RefusalEnd => Refusal(Deltas(p))
      case _ => Text(Deltas(p))
  }

  // ---------------------------------------------------------------- a whole stream

  predicate HasDone(es: seq<AssistantEvent>) { es != [] && es[|es| - 1].Done? }

  predicate AllEnded(es: seq<AssistantEvent>) { forall i :: 0 <= i < Blocks(es) ==> IsEnded(Project(es, i)) }

  predicate HasTool(es: seq<AssistantEvent>) {
    exists i :: 0 <= i < Blocks(es) && PartOf(Project(es, i)).ToolCallPart?
  }

  /** Whether the block step `s` at `index` may follow the events `es`. */
  predicate StepFollows(es: seq<AssistantEvent>, index: u32, s: Step) {
    StepFits(Blocks(es), Wires(es), Ids(es), Project(es, index), index, s)
  }

  /** `blocks`, `wires` and `ids` are taken, and block `index` has the steps `p`. */
  predicate StepFits(blocks: nat, wires: set<u32>, ids: set<Bytes>, p: seq<Step>, index: u32, s: Step) {
    if s.Starts() then
      && index == blocks < U32_MAX
      && (s.ToolCallStart? ==> s.wireIndex !in wires && (s.id.Some? ==> s.id.value !in ids))
    else
      && Continues(p, s)
      && (s.ToolCallEnd? && p[0].id.None? ==> s.call.id !in ids)
  }

  /** Whether `e` may follow the events `es`. */
  predicate Follows(es: seq<AssistantEvent>, e: AssistantEvent) {
    && !HasDone(es)
    && match e
       case Start(_, _, _) => Blocks(es) == 0 && forall k :: 0 <= k < |es| ==> !es[k].Start?
       case Block(index, s) => StepFollows(es, index, s)
       case UsageReport(u) => forall k :: 0 <= k < |es| ==> es[k].UsageReport? ==> es[k].usage == u
       case DetailedUsage(d) => forall k :: 0 <= k < |es| ==> es[k].DetailedUsage? ==> es[k].details == d
       case Done(reason) => Blocks(es) > 0 && AllEnded(es) && (reason.ToolCalls? <==> HasTool(es))
  }

  /** Every event may follow the ones before it. */
  predicate WellFormed(es: seq<AssistantEvent>) {
    es == [] || (WellFormed(es[..|es| - 1]) && Follows(es[..|es| - 1], es[|es| - 1]))
  }

  /** A stream that can be collected: well-formed and ended by `Done`. */
  predicate Complete(es: seq<AssistantEvent>) { WellFormed(es) && HasDone(es) }

  /** The parts of the first `n` blocks, in index order. */
  function PartsOf(es: seq<AssistantEvent>, n: nat): (parts: seq<ContentPart>)
    ensures |parts| == n && forall i :: 0 <= i < n ==> parts[i] == PartOf(Project(es, i))
  {
    seq(n, i requires 0 <= i < n => PartOf(Project(es, i)))
  }

  /** The text parts, concatenated. */
  function TextOf(parts: seq<ContentPart>): Bytes {
    if parts == [] then []
    else
      var last := parts[|parts| - 1];
      TextOf(parts[..|parts| - 1]) + if last.Text? then last.text else []
  }

  // ---------------------------------------------------------------- appending one event

  lemma AppendClaims(es: seq<AssistantEvent>, e: AssistantEvent)
    ensures Blocks(es + [e]) == Blocks(es) + if StartsBlock(e) then 1 else 0
    ensures Wires(es + [e]) == Wires(es) + NewWires(e)
    ensures Ids(es + [e]) == Ids(es) + NewIds(e)
  {
    TakeDrop(es, [e]);
  }

  lemma Append(es: seq<AssistantEvent>, e: AssistantEvent)
    ensures Blocks(es + [e]) == Blocks(es) + if StartsBlock(e) then 1 else 0
    ensures forall i :: Project(es + [e], i) == Project(es, i) + StepAt(e, i)
    ensures Wires(es + [e]) == Wires(es) + NewWires(e)
    ensures Ids(es + [e]) == Ids(es) + NewIds(e)
    ensures WellFormed(es + [e]) == (WellFormed(es) && Follows(es, e))
  {
    TakeDrop(es, [e]);
  }

  lemma AppendStep(p: seq<Step>, s: Step)
    ensures Deltas(p + [s]) ==
            if s.TextDelta? || s.ThinkingDelta? || s.RefusalDelta? then Deltas(p) + s.delta else Deltas(p)
    ensures NameDeltas(p + [s]) ==
            if s.ToolCallDelta? && s.nameDelta.Some? then NameDeltas(p) + s.nameDelta.value else NameDeltas(p)
    ensures ArgumentDeltas(p + [s]) ==
            if s.ToolCallDelta? && s.argumentsDelta.Some?
            then ArgumentDeltas(p) + s.argumentsDelta.value else ArgumentDeltas(p)
    ensures Sealed(p + [s]) == if s.ThinkingOpaque? then Some(s.state) else Sealed(p)
    ensures p != [] ==> (p + [s])[0] == p[0]
    ensures (p + [s])[|p|] == s
  {
    TakeDrop(p, [s]);
    EmptySides(Deltas(p));
    EmptySides(NameDeltas(p));
    EmptySides(ArgumentDeltas(p));
  }
}
