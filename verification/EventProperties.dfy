/** What every accepted event stream guarantees, whatever its interleaving. */
module EventProperties {
  import opened Prelude
  import opened Domain
  import opened Events
  import opened Collecting

  // ---------------------------------------------------------------- blocks

  /** A start step, then steps that may each continue the block. */
  predicate GoodBlock(p: seq<Step>) {
    p == [] || (if |p| == 1 then p[0].Starts() else GoodBlock(p[..|p| - 1]) && Continues(p[..|p| - 1], p[|p| - 1]))
  }

  lemma GoodBlockStep(p: seq<Step>, s: Step)
    requires GoodBlock(p)
    requires if s.Starts() then p == [] else Continues(p, s)
    ensures GoodBlock(p + [s])
  {
    TakeDrop(p, [s]);
  }

  /** Blocks are independent: the steps addressed to one index form a good block of their own. */
  lemma {:induction false} BlocksAreGood(es: seq<AssistantEvent>, i: int)
    requires WellFormed(es)
    ensures GoodBlock(Project(es, i))
  {
    if es != [] {
      var init, e := es[..|es| - 1], es[|es| - 1];
      BlocksAreGood(init, i);
      if e.Block? && e.index == i {
        WellFormedPartitioned(init);
        GoodBlockStep(Project(init, i), e.step);
      } else {
        EmptySides(Project(init, i));
      }
    }
  }

  /** A call that ended with the announced id and exactly the accumulated name and arguments. */
  predicate FinishedCall(p: seq<Step>, call: ToolCall) {
    && p != [] && p[|p| - 1] == ToolCallEnd(call)
    && p[0].ToolCallStart? && (p[0].id.Some? ==> p[0].id.value == call.id)
    && call.name == NameDeltas(p) && call.arguments == ArgumentDeltas(p)
  }

  lemma EndedToolBlock(p: seq<Step>)
    requires GoodBlock(p) && PartOf(p).ToolCallPart?
    ensures FinishedCall(p, PartOf(p).call)
  {
    var q, s := p[..|p| - 1], p[|p| - 1];
    SplitLast(p);
    assert Continues(q, s);
    AppendStep(q, s);
  }

  /** Every collected tool call carries what was announced and accumulated for it. */
  lemma ToolCallMatchesDeltas(es: seq<AssistantEvent>, i: int)
    requires WellFormed(es) && PartOf(Project(es, i)).ToolCallPart?
    ensures FinishedCall(Project(es, i), PartOf(Project(es, i)).call)
  {
    BlocksAreGood(es, i);
    EndedToolBlock(Project(es, i));
  }

  // ---------------------------------------------------------------- tool call ids

  /** The id of a tool call, from its start or its end. */
  function KnownId(p: seq<Step>): Option<Bytes> {
    if p == [] || !p[0].ToolCallStart? then None
    else if p[0].id.Some? then p[0].id
    else if p[|p| - 1].ToolCallEnd? then Some(p[|p| - 1].call.id)
    else None
  }

  ghost predicate DistinctIds(es: seq<AssistantEvent>) {
    forall i: int, j: int :: i != j && KnownId(Project(es, i)).Some? ==>
      KnownId(Project(es, i)) != KnownId(Project(es, j))
  }

  lemma {:induction false} KnownIdIsSeen(es: seq<AssistantEvent>, i: int)
    ensures KnownId(Project(es, i)).Some? ==> KnownId(Project(es, i)).value in Ids(es)
  {
    if es != [] {
      var init, e := es[..|es| - 1], es[|es| - 1];
      KnownIdIsSeen(init, i);
      EmptySides(Project(init, i));
    }
  }

  lemma KnownIdFits(blocks: nat, wires: set<u32>, ids: set<Bytes>, p: seq<Step>, i: u32, s: Step)
    requires StepFits(blocks, wires, ids, p, i, s) && (s.Starts() ==> p == [])
    ensures var before, after := KnownId(p), KnownId(p + [s]);
            after == before || (before == None && after.Some? && after.value !in ids)
  {
    AppendStep(p, s);
  }

  /** How one event changes the known id of block `i`: not at all, or to an id not seen before. */
  lemma KnownIdStep(es: seq<AssistantEvent>, e: AssistantEvent, i: int)
    requires WellFormed(es) && Follows(es, e)
    ensures var before, after := KnownId(Project(es, i)), KnownId(Project(es + [e], i));
            after == before || (e.Block? && e.index == i && before == None && after.Some? && after.value !in Ids(es))
  {
    Append(es, e);
    if e.Block? && e.index == i {
      WellFormedPartitioned(es);
      KnownIdFits(Blocks(es), Wires(es), Ids(es), Project(es, i), e.index, e.step);
    } else {
      EmptySides(Project(es, i));
    }
  }

  /** No two tool calls of one stream share an id, whether it came at the start or at the end. */
  lemma {:induction false} IdsStayDistinct(es: seq<AssistantEvent>)
    requires WellFormed(es)
    ensures DistinctIds(es)
  {
    if es != [] {
      var init, e := es[..|es| - 1], es[|es| - 1];
      IdsStayDistinct(init);
      assert es == init + [e];
      forall i: int, j: int | i != j && KnownId(Project(es, i)).Some?
        ensures KnownId(Project(es, i)) != KnownId(Project(es, j))
      {
        KnownIdStep(init, e, i);
        KnownIdStep(init, e, j);
        KnownIdIsSeen(init, i);
        KnownIdIsSeen(init, j);
      }
    }
  }

  /** Collected tool calls have pairwise distinct ids. */
  lemma CollectedIdsDistinct(es: seq<AssistantEvent>, i: nat, j: nat)
    requires Complete(es) && i < j < Blocks(es)
    requires MessageOf(es).content[i].ToolCallPart? && MessageOf(es).content[j].ToolCallPart?
    ensures MessageOf(es).content[i].call.id != MessageOf(es).content[j].call.id
  {
    ToolCallMatchesDeltas(es, i);
    ToolCallMatchesDeltas(es, j);
    IdsStayDistinct(es);
    assert KnownId(Project(es, i)) == Some(MessageOf(es).content[i].call.id);
    assert KnownId(Project(es, j)) == Some(MessageOf(es).content[j].call.id);
  }

  /** The finish reason says `ToolCalls` exactly when a tool call was collected. */
  lemma FinishReasonAgrees(es: seq<AssistantEvent>)
    requires Complete(es)
    ensures MessageOf(es).finishReason.ToolCalls? <==>
              exists i :: 0 <= i < Blocks(es) && MessageOf(es).content[i].ToolCallPart?
  {
    var init, e := es[..|es| - 1], es[|es| - 1];
    forall i: int ensures Project(es, i) == Project(init, i) {
      EmptySides(Project(init, i));
    }
    assert Blocks(es) == Blocks(init);
    if HasTool(init) {
      var i :| 0 <= i < Blocks(init) && PartOf(Project(init, i)).ToolCallPart?;
      assert MessageOf(es).content[i].ToolCallPart?;
    }
  }

  // ---------------------------------------------------------------- interleavings

  /** Two streams that give every block the same steps have the same blocks. */
  lemma SameBlockCount(a: seq<AssistantEvent>, b: seq<AssistantEvent>)
    requires WellFormed(a) && WellFormed(b)
    requires forall i: int :: Project(a, i) == Project(b, i)
    ensures Blocks(a) <= Blocks(b)
  {
    WellFormedPartitioned(a);
    WellFormedPartitioned(b);
    if Blocks(a) > 0 { assert Project(a, Blocks(a) - 1) != []; }
  }

  /** How the blocks' steps interleave does not show in the collected content. */
  lemma InterleavingIsInvisible(a: seq<AssistantEvent>, b: seq<AssistantEvent>)
    requires Complete(a) && Complete(b)
    requires forall i: int :: Project(a, i) == Project(b, i)
    ensures MessageOf(a).content == MessageOf(b).content
    ensures MessageOf(a).text == MessageOf(b).text
    ensures MessageOf(a).finishReason.ToolCalls? == MessageOf(b).finishReason.ToolCalls?
  {
    SameBlockCount(a, b);
    SameBlockCount(b, a);
    assert PartsOf(a, Blocks(a)) == PartsOf(b, Blocks(b));
    FinishReasonAgrees(a);
    FinishReasonAgrees(b);
  }

  // ---------------------------------------------------------------- commuting events

  /** Streams the grammar cannot tell apart from here on. */
  ghost predicate Alike(a: seq<AssistantEvent>, b: seq<AssistantEvent>) {
    && Blocks(a) == Blocks(b) && Wires(a) == Wires(b) && Ids(a) == Ids(b)
    && (forall i: int :: Project(a, i) == Project(b, i))
    && HasDone(a) == HasDone(b)
    && (forall e :: e in a <==> e in b)
  }

  lemma AlikeFollows(a: seq<AssistantEvent>, b: seq<AssistantEvent>, e: AssistantEvent)
    requires Alike(a, b)
    ensures Follows(a, e) ==> Follows(b, e)
  {
    if Follows(a, e) {
      match e
      case Start(_, _, _) =>
        forall k | 0 <= k < |b| ensures !b[k].Start? { assert b[k] in a; }
      case UsageReport(u) =>
        forall k | 0 <= k < |b| ensures b[k].UsageReport? ==> b[k].usage == u { assert b[k] in a; }
      case DetailedUsage(d) =>
        forall k | 0 <= k < |b| ensures b[k].DetailedUsage? ==> b[k].details == d { assert b[k] in a; }
      case Done(_) => AlikeDone(a, b);
      case Block(_, _) =>
    }
  }

  lemma AlikeDone(a: seq<AssistantEvent>, b: seq<AssistantEvent>)
    requires Alike(a, b)
    ensures AllEnded(a) ==> AllEnded(b)
    ensures HasTool(a) <==> HasTool(b)
  {
    if HasTool(a) {
      var i :| 0 <= i < Blocks(a) && PartOf(Project(a, i)).ToolCallPart?;
      assert PartOf(Project(b, i)).ToolCallPart?;
    }
    if HasTool(b) {
      var i :| 0 <= i < Blocks(b) && PartOf(Project(b, i)).ToolCallPart?;
      assert PartOf(Project(a, i)).ToolCallPart?;
    }
  }

  lemma AlikeAppend(a: seq<AssistantEvent>, b: seq<AssistantEvent>, e: AssistantEvent)
    requires Alike(a, b)
    ensures Alike(a + [e], b + [e])
  {
    Append(a, e);
    Append(b, e);
  }

  /** Streams that are alike have the same continuations. */
  lemma {:induction false} AlikeContinue(a: seq<AssistantEvent>, b: seq<AssistantEvent>, rest: seq<AssistantEvent>)
    requires Alike(a, b) && WellFormed(b)
    requires WellFormed(a + rest)
    ensures WellFormed(b + rest) && Alike(a + rest, b + rest)
    decreases |rest|
  {
    if rest == [] {
      EmptySides(a);
      EmptySides(b);
    } else {
      var init, e := rest[..|rest| - 1], rest[|rest| - 1];
      RegroupLast(a, rest);
      RegroupLast(b, rest);
      CutAt(rest, |rest| - 1);
      EmptySides(init + [e]);
      Regroup(a, init, [e]);
      Regroup(b, init, [e]);
      AlikeContinue(a, b, init);
      AlikeFollows(a + init, b + init, e);
      AlikeAppend(a + init, b + init, e);
    }
  }

  lemma SwapAlike(es: seq<AssistantEvent>, x: AssistantEvent, y: AssistantEvent)
    requires x.Block? && y.Block? && x.index != y.index
    ensures Alike(es + [x] + [y], es + [y] + [x])
  {
    Append(es, x);
    Append(es, y);
    Append(es + [x], y);
    Append(es + [y], x);
    forall i: int ensures Project(es + [x] + [y], i) == Project(es + [y] + [x], i) {
      EmptySides(Project(es, i));
    }
  }

  /** Two steps of different blocks, with steps `p` and `q`, do not get in each other's way. */
  lemma SwapFits(
    blocks: nat, wires: set<u32>, ids: set<Bytes>, p: seq<Step>, i: u32, s: Step, q: seq<Step>, j: u32,
    t: Step)
    requires i != j && !(s.Starts() && t.Starts())
    requires p != [] && p[0].ToolCallStart? && p[0].id.Some? ==> p[0].id.value in ids
    requires q != [] && q[0].ToolCallStart? && q[0].id.Some? ==> q[0].id.value in ids
    requires StepFits(blocks, wires, ids, p, i, s)
    requires StepFits(if s.Starts() then blocks + 1 else blocks, wires + StepWires(s), ids + StepIds(s), q, j, t)
    ensures StepFits(blocks, wires, ids, q, j, t)
    ensures StepFits(if t.Starts() then blocks + 1 else blocks, wires + StepWires(t), ids + StepIds(t), p, i, s)
  {
  }

  /** Neighbouring steps of different blocks can be taken in either order, unless both start a block. */
  lemma SwapFollows(es: seq<AssistantEvent>, i: u32, s: Step, j: u32, t: Step)
    requires i != j && !(s.Starts() && t.Starts())
    requires WellFormed(es) && Follows(es, Block(i, s)) && Follows(es + [Block(i, s)], Block(j, t))
    ensures Follows(es, Block(j, t)) && Follows(es + [Block(j, t)], Block(i, s))
  {
    Append(es, Block(i, s));
    Append(es, Block(j, t));
    EmptySides(Project(es, i));
    EmptySides(Project(es, j));
    StartIdKnown(es, i);
    StartIdKnown(es, j);
    TakeDrop(es, [Block(j, t)]);
    SwapFits(Blocks(es), Wires(es), Ids(es), Project(es, i), i, s, Project(es, j), j, t);
  }

  /** A whole stream is accepted in one order of the two steps exactly when it is in the other. */
  lemma SwapIsInvisible(es: seq<AssistantEvent>, x: AssistantEvent, y: AssistantEvent, rest: seq<AssistantEvent>)
    requires x.Block? && y.Block? && x.index != y.index && !(StartsBlock(x) && StartsBlock(y))
    requires WellFormed(es + [x] + [y] + rest)
    ensures WellFormed(es + [y] + [x] + rest)
    ensures forall i: int :: Project(es + [y] + [x] + rest, i) == Project(es + [x] + [y] + rest, i)
  {
    WellFormedPrefix(es + [x] + [y], rest);
    Append(es + [x], y);
    Append(es, x);
    SwapFollows(es, x.index, x.step, y.index, y.step);
    Append(es, y);
    Append(es + [y], x);
    SwapAlike(es, x, y);
    AlikeContinue(es + [x] + [y], es + [y] + [x], rest);
  }

  lemma {:induction false} WellFormedPrefix(a: seq<AssistantEvent>, b: seq<AssistantEvent>)
    requires WellFormed(a + b)
    ensures WellFormed(a)
    decreases |b|
  {
    if b == [] {
      EmptySides(a);
    } else {
      RegroupLast(a, b);
      WellFormedPrefix(a, b[..|b| - 1]);
    }
  }
}
