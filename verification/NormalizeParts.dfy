/** What a pass does to one message's parts and to the ids of its tool calls. */
module NormalizeParts {
  import opened Prelude
  import opened Domain
  import opened History
  import opened NormalizeSpec
  import opened Canonical

  // ---------------------------------------------------------------- filtering

  /** The parts that survive the policy, in order. */
  function KeptParts(p: Policy, parts: seq<ContentPart>, assistant: bool): seq<ContentPart> {
    if parts == [] then []
    else
      var last := parts[|parts| - 1];
      KeptParts(p, parts[..|parts| - 1], assistant)
      + if VerdictOn(p, last, assistant).Keep? || (assistant && last.ToolCallPart?) then [last] else []
  }

  /** What filtering `parts` from tally `t` results in. */
  ghost predicate FilteredFrom(p: Policy, parts: seq<ContentPart>, assistant: bool, t: Tally, f: Filtered) {
    && f.parts == KeptParts(p, parts, assistant)
    && AllKept(p, f.parts, assistant)
    && f.tally.text == t.text + PartsText(f.parts)
    && (t.text <= p.maxTextBytes ==> f.tally.text <= p.maxTextBytes)
  }

  lemma KeptAppend(p: Policy, parts: seq<ContentPart>, part: ContentPart, assistant: bool)
    ensures KeptParts(p, parts + [part], assistant) ==
            if VerdictOn(p, part, assistant).Keep? || (assistant && part.ToolCallPart?)
            then KeptParts(p, parts, assistant) + [part]
            else KeptParts(p, parts, assistant)
  {
    TakeDrop(parts, [part]);
    EmptySides(KeptParts(p, parts, assistant));
  }

  /** One part is kept within the budget, or dropped. */
  lemma FilterPartCases(p: Policy, part: ContentPart, assistant: bool, f: Filtered)
    ensures var r := FilterPart(p, part, assistant, f);
            if VerdictOn(p, part, assistant).Keep? then
              if f.tally.text + TextCost(part) <= p.maxTextBytes
              then r == Ok(Filtered(f.parts + [part], f.tally.(text := f.tally.text + TextCost(part))))
              else r.Err?
            else
              r.Ok? ==> r.value.parts == f.parts && r.value.tally.text == f.tally.text
  {
  }

  lemma AllKeptAppend(p: Policy, parts: seq<ContentPart>, part: ContentPart, assistant: bool)
    requires AllKept(p, parts, assistant) && VerdictOn(p, part, assistant).Keep?
    ensures AllKept(p, parts + [part], assistant)
  {
  }

  lemma FilterStep(p: Policy, parts: seq<ContentPart>, part: ContentPart, assistant: bool, t: Tally, f: Filtered)
    requires FilteredFrom(p, parts, assistant, t, f) && !(assistant && part.ToolCallPart?)
             && FilterPart(p, part, assistant, f).Ok?
    ensures FilteredFrom(p, parts + [part], assistant, t, FilterPart(p, part, assistant, f).value)
  {
    KeptAppend(p, parts, part, assistant);
    FilterPartCases(p, part, assistant, f);
    CallsAppend(f.parts, part);
    if VerdictOn(p, part, assistant).Keep? { AllKeptAppend(p, f.parts, part, assistant); }
  }

  lemma {:induction false} FilterMeans(p: Policy, parts: seq<ContentPart>, t: Tally)
    requires FilterParts(p, parts, false, t).Ok?
    ensures FilteredFrom(p, parts, false, t, FilterParts(p, parts, false, t).value)
  {
    if parts != [] {
      var init, last := parts[..|parts| - 1], parts[|parts| - 1];
      FilterMeans(p, init, t);
      SplitLast(parts);
      FilterStep(p, init, last, false, t, FilterParts(p, init, false, t).value);
    }
  }

  /** Filtering goes part by part. */
  lemma FilterLast(p: Policy, init: seq<ContentPart>, last: ContentPart, assistant: bool, t: Tally)
    requires FilterParts(p, init, assistant, t).Ok?
    ensures FilterParts(p, init + [last], assistant, t) ==
            FilterPart(p, last, assistant, FilterParts(p, init, assistant, t).value)
  {
    TakeDrop(init, [last]);
  }

  /** One more part that the policy keeps. */
  lemma FilterOneMore(p: Policy, last: ContentPart, assistant: bool, f: Filtered)
    requires VerdictOn(p, last, assistant).Keep? && f.tally.text + TextCost(last) <= p.maxTextBytes
    ensures FilterPart(p, last, assistant, f) ==
            Ok(Filtered(f.parts + [last], f.tally.(text := f.tally.text + TextCost(last))))
  {
  }

  lemma AllKeptInit(p: Policy, parts: seq<ContentPart>, assistant: bool)
    requires AllKept(p, parts, assistant) && parts != []
    ensures AllKept(p, parts[..|parts| - 1], assistant) && VerdictOn(p, parts[|parts| - 1], assistant).Keep?
  {
  }

  /** Parts the policy keeps pass through untouched, if their text fits. */
  lemma {:induction false} FilterKeeps(p: Policy, parts: seq<ContentPart>, assistant: bool, t: Tally)
    requires AllKept(p, parts, assistant) && t.text + PartsText(parts) <= p.maxTextBytes
    ensures FilterParts(p, parts, assistant, t) == Ok(Filtered(parts, t.(text := t.text + PartsText(parts))))
  {
    if parts != [] {
      var init, last := parts[..|parts| - 1], parts[|parts| - 1];
      AllKeptInit(p, parts, assistant);
      FilterKeeps(p, init, assistant, t);
      FilterLast(p, init, last, assistant, t);
      FilterOneMore(p, last, assistant, Filtered(init, t.(text := t.text + PartsText(init))));
      SplitLast(parts);
    }
  }

  // ---------------------------------------------------------------- ids

  lemma {:induction false} AlreadyClean(id: Bytes)
    requires forall i :: 0 <= i < |id| ==> IdChar(id[i])
    ensures OnlyIdChars(id) == id
  {
    if id != [] {
      AlreadyClean(id[1..]);
      HeadTail(id);
    }
  }

  /** A normalized id is free and fits; under the OpenAI policy it is well-formed. */
  lemma NormalizedIdFits(policy: IdPolicy, id: Bytes, occupied: set<Bytes>)
    requires NormalizeId(policy, id, occupied).Ok?
    ensures NormalizeId(policy, id, occupied).value !in occupied
    ensures policy.OpenAi? ==> OpenAiId(NormalizeId(policy, id, occupied).value)
  {
  }

  /** Ids that fit and are free are fixed points. */
  lemma FittingIdStays(policy: IdPolicy, id: Bytes, occupied: set<Bytes>)
    requires id !in occupied && (policy.OpenAi? ==> OpenAiId(id))
    ensures NormalizeId(policy, id, occupied) == Ok(id)
  {
    if policy.OpenAi? { AlreadyClean(id); }
  }

  // ---------------------------------------------------------------- a turn

  /** The mappings of calls whose ids `ids` became `ids'`: those that changed. */
  function Changes(ids: seq<Bytes>, ids': seq<Bytes>): seq<IdMapping>
    requires |ids| == |ids'|
  {
    if ids == [] then []
    else
      var n := |ids| - 1;
      Changes(ids[..n], ids'[..n]) + if ids[n] == ids'[n] then [] else [IdMapping(ids[n], ids'[n])]
  }

  /** Calls renamed to `ids`, nothing else changed. */
  function Renamed(calls: seq<ToolCall>, ids: seq<Bytes>): (r: seq<ToolCall>)
    requires |calls| == |ids|
    ensures |r| == |calls| && forall i :: 0 <= i < |calls| ==> r[i] == calls[i].(id := ids[i])
  {
    seq(|calls|, i requires 0 <= i < |calls| => calls[i].(id := ids[i]))
  }

  lemma CallsAppend(parts: seq<ContentPart>, part: ContentPart)
    ensures CallsOf(parts + [part]) == if part.ToolCallPart? then CallsOf(parts) + [part.call] else CallsOf(parts)
    ensures PartsText(parts + [part]) == PartsText(parts) + TextCost(part)
  {
    TakeDrop(parts, [part]);
    EmptySides(CallsOf(parts));
  }

  lemma IdsAppend(calls: seq<ToolCall>, call: ToolCall)
    ensures IdsOf(calls + [call]) == IdsOf(calls) + [call.id]
    ensures ToSet(IdsOf(calls + [call])) == ToSet(IdsOf(calls)) + {call.id}
  {
  }

  lemma IdsFitAppend(p: Policy, ids: seq<Bytes>, id: Bytes)
    requires IdsFit(p, ids) && id !in ToSet(ids) && (p.toolCallId.OpenAi? ==> OpenAiId(id))
    ensures IdsFit(p, ids + [id])
  {
  }

  lemma ChangesAppend(ids: seq<Bytes>, ids': seq<Bytes>, id: Bytes, id': Bytes)
    requires |ids| == |ids'|
    ensures Changes(ids + [id], ids' + [id']) == Changes(ids, ids') + if id == id' then [] else [IdMapping(id, id')]
  {
    TakeDrop(ids, [id]);
    TakeDrop(ids', [id']);
  }

  /** The content of a processed turn: shape, text and everything but ids are those of the kept parts. */
  ghost predicate TurnContent(p: Policy, parts: seq<ContentPart>, t: Tally, turn: Turn) {
    && TurnShape(p, turn.parts)
    && Erased(turn.parts) == Erased(KeptParts(p, parts, true))
    && turn.tally.text == t.text + PartsText(turn.parts)
    && (t.text <= p.maxTextBytes ==> turn.tally.text <= p.maxTextBytes)
  }

  /** The calls of a processed turn: renamed to fitting ids, with the changes on record. */
  ghost predicate TurnIds(p: Policy, parts: seq<ContentPart>, turn: Turn) {
    var before, after := IdsOf(CallsOf(parts)), IdsOf(CallsOf(turn.parts));
    && IdsFit(p, after)
    && turn.occupied == ToSet(after)
    && turn.seenTool == (after != [])
    && |before| == |after|
    && turn.mappings == Changes(before, after)
    && CallsOf(turn.parts) == Renamed(CallsOf(parts), after)
  }

  /** Parts without the ids of their tool calls. */
  function Erased(parts: seq<ContentPart>): (r: seq<ContentPart>)
    ensures |r| == |parts|
    ensures forall i :: 0 <= i < |parts| ==> r[i] == ErasedPart(parts[i])
  {
    seq(|parts|, i requires 0 <= i < |parts| => ErasedPart(parts[i]))
  }

  function ErasedPart(part: ContentPart): ContentPart {
    if part.ToolCallPart? then ToolCallPart(part.call.(id := [])) else part
  }

  lemma ErasedAppend(a: seq<ContentPart>, part: ContentPart)
    ensures Erased(a + [part]) == Erased(a) + [ErasedPart(part)]
  {
  }

  lemma RenamedAppend(calls: seq<ToolCall>, ids: seq<Bytes>, call: ToolCall, id: Bytes)
    requires |calls| == |ids|
    ensures Renamed(calls + [call], ids + [id]) == Renamed(calls, ids) + [call.(id := id)]
  {
  }

  /** One more call, renamed to a free and fitting id. */
  lemma CallJoins(p: Policy, calls: seq<ToolCall>, calls': seq<ToolCall>, call: ToolCall, id: Bytes)
    requires |calls| == |calls'| && calls' == Renamed(calls, IdsOf(calls'))
    requires IdsFit(p, IdsOf(calls')) && id !in ToSet(IdsOf(calls')) && (p.toolCallId.OpenAi? ==> OpenAiId(id))
    ensures var before, after := calls + [call], calls' + [call.(id := id)];
            && IdsFit(p, IdsOf(after))
            && ToSet(IdsOf(after)) == ToSet(IdsOf(calls')) + {id}
            && Changes(IdsOf(before), IdsOf(after)) ==
              Changes(IdsOf(calls), IdsOf(calls')) + (if call.id == id then [] else [IdMapping(call.id, id)])
            && after == Renamed(before, IdsOf(after))
  {
    IdsAppend(calls, call);
    IdsAppend(calls', call.(id := id));
    IdsFitAppend(p, IdsOf(calls'), id);
    ChangesAppend(IdsOf(calls), IdsOf(calls'), call.id, id);
    RenamedAppend(calls, IdsOf(calls'), call, id);
  }

  /** A tool call joins the turn under a fitting id. */
  lemma CallIds(p: Policy, parts: seq<ContentPart>, part: ContentPart, turn: Turn)
    requires TurnIds(p, parts, turn) && part.ToolCallPart? && TurnStep(p, part, turn).Ok?
    ensures TurnIds(p, parts + [part], TurnStep(p, part, turn).value)
  {
    var id := NormalizeId(p.toolCallId, part.call.id, turn.occupied).value;
    NormalizedIdFits(p.toolCallId, part.call.id, turn.occupied);
    CallsAppend(parts, part);
    CallsAppend(turn.parts, ToolCallPart(part.call.(id := id)));
    CallJoins(p, CallsOf(parts), CallsOf(turn.parts), part.call, id);
  }

  lemma CallContent(p: Policy, parts: seq<ContentPart>, part: ContentPart, t: Tally, turn: Turn)
    requires TurnContent(p, parts, t, turn) && part.ToolCallPart? && TurnStep(p, part, turn).Ok?
    ensures TurnContent(p, parts + [part], t, TurnStep(p, part, turn).value)
  {
    var renamed := ToolCallPart(part.call.(id := NormalizeId(p.toolCallId, part.call.id, turn.occupied).value));
    CallsAppend(turn.parts, renamed);
    KeptAppend(p, parts, part, true);
    ErasedAppend(turn.parts, renamed);
    ErasedAppend(KeptParts(p, parts, true), part);
    ShapeAppend(p, turn.parts, renamed);
  }

  lemma ShapeAppend(p: Policy, parts: seq<ContentPart>, part: ContentPart)
    requires TurnShape(p, parts)
    requires part.ToolCallPart? || (VerdictOn(p, part, true).Keep? && CallsOf(parts) == [])
    ensures TurnShape(p, parts + [part])
  {
    if !part.ToolCallPart? { NoCallsNoToolParts(parts); }
  }

  /** Other content leaves the calls alone. */
  lemma OtherIds(p: Policy, parts: seq<ContentPart>, part: ContentPart, turn: Turn)
    requires TurnIds(p, parts, turn) && !part.ToolCallPart? && TurnStep(p, part, turn).Ok?
    ensures TurnIds(p, parts + [part], TurnStep(p, part, turn).value)
  {
    FilterPartCases(p, part, true, Filtered(turn.parts, turn.tally));
    CallsAppend(parts, part);
    CallsAppend(turn.parts, part);
    var next := TurnStep(p, part, turn).value;
    assert CallsOf(next.parts) == CallsOf(turn.parts);
  }

  lemma OtherContent(p: Policy, parts: seq<ContentPart>, part: ContentPart, t: Tally, turn: Turn)
    requires TurnContent(p, parts, t, turn) && TurnIds(p, parts, turn) && !part.ToolCallPart?
             && TurnStep(p, part, turn).Ok?
    ensures TurnContent(p, parts + [part], t, TurnStep(p, part, turn).value)
  {
    KeptAppend(p, parts, part, true);
    FilterPartCases(p, part, true, Filtered(turn.parts, turn.tally));
    if VerdictOn(p, part, true).Keep? {
      CallsAppend(turn.parts, part);
      ErasedAppend(turn.parts, part);
      ErasedAppend(KeptParts(p, parts, true), part);
      ShapeAppend(p, turn.parts, part);
    }
  }

  lemma {:induction false} NoCallsNoToolParts(parts: seq<ContentPart>)
    requires CallsOf(parts) == []
    ensures forall i :: 0 <= i < |parts| ==> !parts[i].ToolCallPart?
  {
    if parts != [] { NoCallsNoToolParts(parts[..|parts| - 1]); }
  }

  lemma {:induction false} TurnMeans(p: Policy, parts: seq<ContentPart>, t: Tally)
    requires TurnParts(p, parts, t).Ok?
    ensures TurnContent(p, parts, t, TurnParts(p, parts, t).value)
    ensures TurnIds(p, parts, TurnParts(p, parts, t).value)
  {
    if parts == [] {
      assert ToSet(IdsOf(CallsOf(parts))) == {};
    } else {
      var init, last := parts[..|parts| - 1], parts[|parts| - 1];
      var turn := TurnParts(p, init, t).value;
      TurnMeans(p, init, t);
      SplitLast(parts);
      if last.ToolCallPart? {
        CallIds(p, init, last, turn);
        CallContent(p, init, last, t, turn);
      } else {
        OtherIds(p, init, last, turn);
        OtherContent(p, init, last, t, turn);
      }
    }
  }

  // ---------------------------------------------------------------- canonical turns pass unchanged

  lemma TurnShapeInit(p: Policy, parts: seq<ContentPart>)
    requires parts != [] && TurnShape(p, parts)
    ensures var init, last := parts[..|parts| - 1], parts[|parts| - 1];
            && TurnShape(p, init)
            && (!last.ToolCallPart? ==> CallsOf(init) == [] && VerdictOn(p, last, true).Keep?)
  {
    if !parts[|parts| - 1].ToolCallPart? { NoToolParts(parts[..|parts| - 1]); }
  }

  lemma IdsFitInit(p: Policy, ids: seq<Bytes>, id: Bytes)
    requires IdsFit(p, ids + [id])
    ensures IdsFit(p, ids) && id !in ToSet(ids) && (p.toolCallId.OpenAi? ==> OpenAiId(id))
  {
    var all := ids + [id];
    assert all[|ids|] == id && forall i :: 0 <= i < |ids| ==> all[i] == ids[i];
  }

  lemma {:induction false} NoToolParts(parts: seq<ContentPart>)
    requires forall i :: 0 <= i < |parts| ==> !parts[i].ToolCallPart?
    ensures CallsOf(parts) == []
  {
    if parts != [] { NoToolParts(parts[..|parts| - 1]); }
  }

  /** The turn a canonical message is. */
  function Settled(parts: seq<ContentPart>, t: Tally): Turn {
    Turn(parts, [], ToSet(IdsOf(CallsOf(parts))), CallsOf(parts) != [], t.(text := t.text + PartsText(parts)))
  }

  lemma SettledCall(p: Policy, parts: seq<ContentPart>, part: ContentPart, t: Tally)
    requires part.ToolCallPart? && IdsFit(p, IdsOf(CallsOf(parts + [part])))
    ensures IdsFit(p, IdsOf(CallsOf(parts)))
    ensures TurnStep(p, part, Settled(parts, t)) == Ok(Settled(parts + [part], t))
  {
    CallsAppend(parts, part);
    IdsAppend(CallsOf(parts), part.call);
    IdsFitInit(p, IdsOf(CallsOf(parts)), part.call.id);
    FittingIdStays(p.toolCallId, part.call.id, ToSet(IdsOf(CallsOf(parts))));
    assert part == ToolCallPart(part.call.(id := part.call.id));
    var next := TurnStep(p, part, Settled(parts, t)).value;
    assert next.mappings == [];
  }

  /** A kept part is added to a turn without calls. */
  lemma TurnKeepsOne(p: Policy, part: ContentPart, turn: Turn)
    requires !part.ToolCallPart? && VerdictOn(p, part, true).Keep? && !turn.seenTool
    requires turn.tally.text + TextCost(part) <= p.maxTextBytes
    ensures var tally := turn.tally.(text := turn.tally.text + TextCost(part));
            TurnStep(p, part, turn) == Ok(turn.(parts := turn.parts + [part], tally := tally))
  {
    FilterOneMore(p, part, true, Filtered(turn.parts, turn.tally));
  }

  lemma SettledOther(p: Policy, parts: seq<ContentPart>, part: ContentPart, t: Tally)
    requires !part.ToolCallPart? && VerdictOn(p, part, true).Keep? && CallsOf(parts) == []
    requires t.text + PartsText(parts + [part]) <= p.maxTextBytes
    ensures TurnStep(p, part, Settled(parts, t)) == Ok(Settled(parts + [part], t))
  {
    CallsAppend(parts, part);
    TurnKeepsOne(p, part, Settled(parts, t));
  }

  /** A canonical turn passes unchanged. */
  lemma {:induction false} TurnKeeps(p: Policy, parts: seq<ContentPart>, t: Tally)
    requires TurnShape(p, parts) && IdsFit(p, IdsOf(CallsOf(parts)))
    requires t.text + PartsText(parts) <= p.maxTextBytes
    ensures TurnParts(p, parts, t) == Ok(Settled(parts, t))
  {
    if parts == [] {
      assert ToSet(IdsOf(CallsOf(parts))) == {};
    } else {
      var init, last := parts[..|parts| - 1], parts[|parts| - 1];
      TurnShapeInit(p, parts);
      SplitLast(parts);
      if last.ToolCallPart? {
        SettledCall(p, init, last, t);
      } else {
        CallsAppend(init, last);
        SettledOther(p, init, last, t);
      }
      TurnKeeps(p, init, t);
    }
  }

  // ---------------------------------------------------------------- looking ids up

  lemma {:induction false} ChangesOriginals(ids: seq<Bytes>, ids': seq<Bytes>, m: IdMapping)
    requires |ids| == |ids'| && m in Changes(ids, ids')
    ensures exists i :: 0 <= i < |ids| && ids[i] == m.original && ids'[i] == m.normalized
  {
    var n := |ids| - 1;
    if m in Changes(ids[..n], ids'[..n]) {
      ChangesOriginals(ids[..n], ids'[..n], m);
      var i :| 0 <= i < n && ids[..n][i] == m.original && ids'[..n][i] == m.normalized;
      assert ids[i] == m.original && ids'[i] == m.normalized;
    } else {
      assert ids[n] == m.original && ids'[n] == m.normalized;
    }
  }

  lemma {:induction false} ChangesContain(ids: seq<Bytes>, ids': seq<Bytes>, i: nat)
    requires |ids| == |ids'| && i < |ids| && ids[i] != ids'[i]
    ensures IdMapping(ids[i], ids'[i]) in Changes(ids, ids')
  {
    var n := |ids| - 1;
    if i < n { ChangesContain(ids[..n], ids'[..n], i); }
  }

  /** Looking up a call's original id finds that very call's new id. */
  lemma LookupFinds(ids: seq<Bytes>, ids': seq<Bytes>, i: nat)
    requires |ids| == |ids'| && Distinct(ids) && i < |ids|
    ensures Lookup(Changes(ids, ids'), ids[i]) == ids'[i]
  {
    var changes := Changes(ids, ids');
    var k := FindOriginal(changes, ids[i]);
    if k < |changes| {
      ChangesOriginals(ids, ids', changes[k]);
    } else if ids[i] != ids'[i] {
      ChangesContain(ids, ids', i);
    }
  }

  lemma NoChanges(ids: seq<Bytes>)
    ensures Changes(ids, ids) == []
  {
  }

  /** The expected ids are the new ids of the calls; the check for duplicates never fires. */
  lemma {:induction false} ExpectedMeans(ids: seq<Bytes>, ids': seq<Bytes>, calls: seq<ToolCall>, k: nat)
    requires |calls| == |ids| == |ids'| && k <= |ids| && ids == IdsOf(calls) && Distinct(ids) && Distinct(ids')
    ensures Expected(Changes(ids, ids'), calls[..k]) == Ok(ToSet(ids'[..k]))
  {
    if k == 0 {
      assert ToSet(ids'[..0]) == {};
    } else {
      ExpectedMeans(ids, ids', calls, k - 1);
      TakeNext(calls, k - 1);
      TakeNext(ids', k - 1);
      LookupFinds(ids, ids', k - 1);
      assert ToSet(ids'[..k]) == ToSet(ids'[..k - 1]) + {ids'[k - 1]};
      assert ids'[k - 1] !in ids'[..k - 1];
    }
  }
}
