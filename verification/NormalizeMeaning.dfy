/** What a pass preserves: everything a reader of the history sees, and which call each result answers. */
module NormalizeMeaning {
  import opened Prelude
  import opened Domain
  import opened History
  import opened NormalizeSpec
  import opened Canonical
  import opened NormalizeParts
  import opened NormalizeTurns
  import opened NormalizeProperties

  // ---------------------------------------------------------------- content

  /** A message as its reader sees it, ids aside. */
  datatype Seen = SeenParts(role: Role, parts: seq<ContentPart>) | SeenResult(result: ToolResult)

  function SeenIn(p: Policy, m: Message): seq<Seen> {
    if m.role.Tool? && m.payload.Answer? then [SeenResult(m.payload.result.(callId := []))]
    else
      var kept := Erased(KeptParts(p, m.Parts(), m.role.Assistant?));
      if kept == [] then [] else [SeenParts(m.role, kept)]
  }

  /** What the policy lets a reader see of a history, in order. */
  function Visible(p: Policy, ms: seq<Message>): seq<Seen> {
    if ms == [] then [] else SeenIn(p, ms[0]) + Visible(p, ms[1..])
  }

  lemma {:induction false} VisibleAppend(p: Policy, a: seq<Message>, b: seq<Message>)
    ensures Visible(p, a + b) == Visible(p, a) + Visible(p, b)
  {
    if a == [] {
      EmptySides(b);
    } else {
      RegroupHead(a, b);
      VisibleAppend(p, a[1..], b);
      Regroup(SeenIn(p, a[0]), Visible(p, a[1..]), Visible(p, b));
    }
  }

  lemma VisibleOne(p: Policy, m: Message)
    ensures Visible(p, [m]) == SeenIn(p, m)
  {
    EmptySides(SeenIn(p, m));
  }

  lemma {:induction false} KeptAll(p: Policy, parts: seq<ContentPart>, assistant: bool)
    requires forall i :: 0 <= i < |parts| ==>
               VerdictOn(p, parts[i], assistant).Keep? || (assistant && parts[i].ToolCallPart?)
    ensures KeptParts(p, parts, assistant) == parts
  {
    if parts != [] {
      KeptAll(p, parts[..|parts| - 1], assistant);
      SplitLast(parts);
    }
  }

  lemma PlainVisible(p: Policy, m: Message, t: Tally)
    requires PlainHead(p, m, t).Ok? && !m.role.Assistant? && !m.role.Tool?
    ensures Visible(p, PlainHead(p, m, t).value.output) == SeenIn(p, m)
  {
    FilterMeans(p, m.payload.parts, t);
    var f := FilterParts(p, m.payload.parts, false, t).value;
    KeptAll(p, f.parts, false);
    VisibleOne(p, Message(m.role, Content(f.parts)));
  }

  lemma TurnVisible(p: Policy, m: Message, t: Tally)
    requires m.role.Assistant? && TurnParts(p, m.Parts(), t).Ok?
    ensures SeenIn(p, Message(Assistant, Content(TurnParts(p, m.Parts(), t).value.parts))) == SeenIn(p, m)
  {
    TurnMeans(p, m.Parts(), t);
    KeptAll(p, TurnParts(p, m.Parts(), t).value.parts, true);
  }

  lemma {:induction false} RunVisible(p: Policy, asked: Asked, run: seq<Message>, results: seq<ToolResult>)
    requires |run| == |results| && forall j :: 0 <= j < |run| ==> run[j].role.Tool? && Remaps(asked, run[j], results[j])
    ensures Visible(p, AnswerMessages(results)) == Visible(p, run)
  {
    if run != [] {
      assert Remaps(asked, run[0], results[0]);
      assert AnswerMessages(results)[1..] == AnswerMessages(results[1..]);
      RunVisible(p, asked, run[1..], results[1..]);
    }
  }

  /** A head shows exactly what the messages it consumed show. */
  ghost predicate Shows(p: Policy, h: Head, front: seq<Message>) {
    Visible(p, h.output) == Visible(p, front)
  }

  lemma ToolTurnVisible(p: Policy, m: Message, t: Tally, rest: seq<Message>)
    requires m.role.Assistant? && Distinct(IdsOf(CallsOf(m.Parts()))) && t.text <= p.maxTextBytes
    requires TurnParts(p, m.Parts(), t).Ok?
    requires ToolHead(p, TurnParts(p, m.Parts(), t).value, CallsOf(m.Parts()), rest).Ok?
    ensures Shows(p, ToolHead(p, TurnParts(p, m.Parts(), t).value, CallsOf(m.Parts()), rest).value,
                  [m] + rest[..LeadingTools(rest)])
  {
    var parts := m.Parts();
    var results := ToolHeadMeans(p, parts, t, rest);
    var turn := TurnParts(p, parts, t).value;
    var run := rest[..LeadingTools(rest)];
    var m' := Message(Assistant, Content(turn.parts));
    TurnVisible(p, m, t);
    RunVisible(p, Asked(turn.mappings, CallsOf(parts), ToSet(IdsOf(CallsOf(turn.parts)))), run, results);
    VisibleAppend(p, [m'], AnswerMessages(results));
    VisibleAppend(p, [m], run);
    VisibleOne(p, m);
    VisibleOne(p, m');
  }

  lemma QuietTurnVisible(p: Policy, m: Message, t: Tally, rest: seq<Message>)
    requires m.role.Assistant? && CallsOf(m.Parts()) == [] && TurnHead(p, TurnParts(p, m.Parts(), t), [], rest).Ok?
    ensures Shows(p, TurnHead(p, TurnParts(p, m.Parts(), t), [], rest).value, [m])
  {
    TurnVisible(p, m, t);
    VisibleOne(p, m);
    VisibleOne(p, Message(Assistant, Content(TurnParts(p, m.Parts(), t).value.parts)));
  }

  lemma AssistantToolsVisible(p: Policy, ms: seq<Message>, t: Tally)
    requires ms != [] && ms[0].role.Assistant? && t.text <= p.maxTextBytes && AssistantHead(p, ms, t).Ok?
    requires CallsOf(ms[0].Parts()) != []
    ensures var h := AssistantHead(p, ms, t).value; h.used <= |ms| && Shows(p, h, ms[..h.used])
  {
    ToolTurnVisible(p, ms[0], t, ms[1..]);
    Front(ms, LeadingTools(ms[1..]));
  }

  lemma AssistantVisible(p: Policy, ms: seq<Message>, t: Tally)
    requires ms != [] && ms[0].role.Assistant? && t.text <= p.maxTextBytes && AssistantHead(p, ms, t).Ok?
    ensures var h := AssistantHead(p, ms, t).value; h.used <= |ms| && Shows(p, h, ms[..h.used])
  {
    var m := ms[0];
    if CallsOf(m.Parts()) != [] {
      AssistantToolsVisible(p, ms, t);
    } else {
      assert ms[..1] == [m];
      VisibleOne(p, m);
      if m.Parts() != [] { QuietTurnVisible(p, m, t, ms[1..]); }
    }
  }

  lemma HeadVisible(p: Policy, ms: seq<Message>, t: Tally)
    requires ms != [] && t.text <= p.maxTextBytes && NormalizeHead(p, ms, t).Ok?
    ensures var h := NormalizeHead(p, ms, t).value; Shows(p, h, ms[..h.used])
  {
    if ms[0].role.Assistant? {
      AssistantVisible(p, ms, t);
    } else {
      PlainVisible(p, ms[0], t);
      VisibleOne(p, ms[0]);
      assert ms[..1] == [ms[0]];
    }
  }

  lemma {:induction false} PassVisible(p: Policy, ms: seq<Message>, t: Tally)
    requires NormalizeFrom(p, ms, t).Ok? && t.text <= p.maxTextBytes
    ensures Visible(p, NormalizeFrom(p, ms, t).value.output) == Visible(p, ms)
    decreases |ms|
  {
    if ms != [] {
      var h := NormalizeHead(p, ms, t).value;
      HeadVisible(p, ms, t);
      HeadMeans(p, ms, t, []);
      PassVisible(p, ms[h.used..], h.tally);
      VisibleAppend(p, h.output, NormalizeFrom(p, ms[h.used..], h.tally).value.output);
      VisibleAppend(p, ms[..h.used], ms[h.used..]);
      Halves(ms, h.used);
    }
  }

  /** A pass loses nothing the policy keeps and adds nothing: what is seen, in what order, stays the same. */
  lemma NormalizationPreservesContent(p: Policy, ms: seq<Message>)
    requires Normalize(p, ms).Ok?
    ensures Visible(p, Normalize(p, ms).value.messages) == Visible(p, ms)
  {
    PassVisible(p, ms, START);
  }

  // ---------------------------------------------------------------- links

  function PositionOf(ids: seq<Bytes>, id: Bytes): (r: Option<nat>)
    ensures r.Some? ==> r.value < |ids| && ids[r.value] == id && id !in ids[..r.value]
    ensures r.None? ==> id !in ids
  {
    if ids == [] then None
    else if ids[0] == id then Some(0)
    else
      match PositionOf(ids[1..], id)
      case None => None
      case Some(i) => Some(i + 1)
  }

  function Positions(ids: seq<Bytes>, run: seq<Message>): (r: seq<Option<nat>>)
    ensures |r| == |run| && forall j :: 0 <= j < |run| ==> r[j] == PositionOf(ids, AnsweredId(run[j]))
  {
    if run == [] then [] else [PositionOf(ids, AnsweredId(run[0]))] + Positions(ids, run[1..])
  }

  /** For every tool message, the position of the call it answers among the calls `ids` of its turn. */
  function Links(ms: seq<Message>, ids: seq<Bytes>): seq<Option<nat>> {
    if ms == [] then []
    else if ms[0].role.Tool? then [PositionOf(ids, AnsweredId(ms[0]))] + Links(ms[1..], ids)
    else Links(ms[1..], if ms[0].role.Assistant? then IdsOf(CallsOf(ms[0].Parts())) else [])
  }

  /** Every result is linked, and links that were there before are the same. */
  predicate KeepsLinks(before: seq<Option<nat>>, after: seq<Option<nat>>) {
    && |after| == |before|
    && forall j :: 0 <= j < |before| ==> after[j].Some? && (before[j].Some? ==> after[j] == before[j])
  }

  predicate StartsAfresh(ms: seq<Message>) { ms == [] || !ms[0].role.Tool? }

  lemma {:induction false} LinksRun(run: seq<Message>, more: seq<Message>, ids: seq<Bytes>)
    requires (forall i :: 0 <= i < |run| ==> run[i].role.Tool?) && StartsAfresh(more)
    ensures Links(run + more, ids) == Positions(ids, run) + Links(more, [])
  {
    if run == [] {
      EmptySides(more);
      EmptySides(Links(more, []));
    } else {
      RegroupHead(run, more);
      LinksRun(run[1..], more, ids);
      Regroup([PositionOf(ids, AnsweredId(run[0]))], Positions(ids, run[1..]), Links(more, []));
    }
  }

  lemma LinksTurn(m: Message, run: seq<Message>, more: seq<Message>, ids: seq<Bytes>)
    requires m.role.Assistant? && (forall i :: 0 <= i < |run| ==> run[i].role.Tool?) && StartsAfresh(more)
    ensures Links([m] + run + more, ids) == Positions(IdsOf(CallsOf(m.Parts())), run) + Links(more, [])
  {
    var all := [m] + run + more;
    assert all[0] == m && all[1..] == run + more;
    LinksRun(run, more, IdsOf(CallsOf(m.Parts())));
  }

  lemma LinksSkip(m: Message, more: seq<Message>, ids: seq<Bytes>)
    requires !m.role.Tool? && StartsAfresh(more)
    ensures Links([m] + more, ids) == Links(more, [])
  {
    TakeDrop([m], more);
    LinksAfresh(more, if m.role.Assistant? then IdsOf(CallsOf(m.Parts())) else []);
  }

  lemma LinksAfresh(ms: seq<Message>, ids: seq<Bytes>)
    requires StartsAfresh(ms)
    ensures Links(ms, ids) == Links(ms, [])
  {
  }

  lemma LinksConcat(a: seq<Option<nat>>, b: seq<Option<nat>>, a': seq<Option<nat>>, b': seq<Option<nat>>)
    requires KeepsLinks(a, a') && KeepsLinks(b, b')
    ensures KeepsLinks(a + b, a' + b')
  {
  }

  /** A result found under a call's id is found under that call's new id. */
  lemma ResultKeepsLink(calls: seq<ToolCall>, ids': seq<Bytes>, m: Message, r: ToolResult)
    requires |calls| == |ids'| && Distinct(IdsOf(calls)) && Distinct(ids') && r.callId in ids'
    requires Remaps(Asked(Changes(IdsOf(calls), ids'), calls, ToSet(ids')), m, r)
    ensures PositionOf(ids', r.callId).Some?
    ensures var i := PositionOf(IdsOf(calls), AnsweredId(m)); i.Some? ==> PositionOf(ids', r.callId) == i
  {
    var i := PositionOf(IdsOf(calls), AnsweredId(m));
    if i.Some? {
      ResolveFinds(IdsOf(calls), ids', calls, i.value);
    }
  }

  lemma ToolTurnLinks(p: Policy, parts: seq<ContentPart>, rest: seq<Message>, turn: Turn, results: seq<ToolResult>)
    requires ToolTurn(p, parts, rest, turn, results) && Distinct(IdsOf(CallsOf(parts)))
    ensures KeepsLinks(Positions(IdsOf(CallsOf(parts)), rest[..LeadingTools(rest)]),
                       Positions(IdsOf(CallsOf(turn.parts)), AnswerMessages(results)))
  {
    var ids' := IdsOf(CallsOf(turn.parts));
    var run, run' := rest[..LeadingTools(rest)], AnswerMessages(results);
    forall j | 0 <= j < |run|
      ensures PositionOf(ids', AnsweredId(run'[j])).Some?
      ensures var i := PositionOf(IdsOf(CallsOf(parts)), AnsweredId(run[j]));
              i.Some? ==> PositionOf(ids', AnsweredId(run'[j])) == i
    {
      assert AnswerIds(run')[j] == results[j].callId;
      assert results[j].callId in ToSet(AnswerIds(run'));
      ResultKeepsLink(CallsOf(parts), ids', run[j], results[j]);
    }
  }

  /** What follows a head, before and after the pass. */
  predicate Continues(more: seq<Message>, more': seq<Message>) {
    StartsAfresh(more) && StartsAfresh(more') && KeepsLinks(Links(more, []), Links(more', []))
  }

  lemma SoloLinks(m: Message, out: seq<Message>, more: seq<Message>, more': seq<Message>)
    requires !m.role.Tool? && Continues(more, more')
    requires out == [] || (|out| == 1 && !out[0].role.Tool?)
    ensures KeepsLinks(Links([m] + more, []), Links(out + more', []))
  {
    LinksSkip(m, more, []);
    if out == [] {
      EmptySides(more');
    } else {
      assert out == [out[0]];
      LinksSkip(out[0], more', []);
    }
  }

  lemma ToolHeadLinks(p: Policy, m: Message, t: Tally, rest: seq<Message>, more: seq<Message>, more': seq<Message>)
    requires m.role.Assistant? && Distinct(IdsOf(CallsOf(m.Parts()))) && t.text <= p.maxTextBytes
             && Continues(more, more')
    requires TurnParts(p, m.Parts(), t).Ok?
    requires ToolHead(p, TurnParts(p, m.Parts(), t).value, CallsOf(m.Parts()), rest).Ok?
    ensures var h := ToolHead(p, TurnParts(p, m.Parts(), t).value, CallsOf(m.Parts()), rest).value;
            KeepsLinks(Links([m] + rest[..LeadingTools(rest)] + more, []), Links(h.output + more', []))
  {
    var results := ToolHeadMeans(p, m.Parts(), t, rest);
    var turn := TurnParts(p, m.Parts(), t).value;
    var run, run' := rest[..LeadingTools(rest)], AnswerMessages(results);
    var m' := Message(Assistant, Content(turn.parts));
    ToolTurnLinks(p, m.Parts(), rest, turn, results);
    LinksTurn(m, run, more, []);
    LinksTurn(m', run', more', []);
    LinksConcat(Positions(IdsOf(CallsOf(m.Parts())), run), Links(more, []),
      Positions(IdsOf(CallsOf(turn.parts)), run'), Links(more', []));
  }

  lemma AssistantToolLinks(p: Policy, ms: seq<Message>, t: Tally, more': seq<Message>)
    requires ms != [] && ms[0].role.Assistant? && t.text <= p.maxTextBytes && AssistantHead(p, ms, t).Ok?
    requires CallsOf(ms[0].Parts()) != []
    requires AssistantHead(p, ms, t).value.used <= |ms| && Continues(ms[AssistantHead(p, ms, t).value.used..], more')
    ensures KeepsLinks(Links(ms, []), Links(AssistantHead(p, ms, t).value.output + more', []))
  {
    var k := LeadingTools(ms[1..]);
    ToolHeadLinks(p, ms[0], t, ms[1..], ms[1 + k..], more');
    SliceRun(ms, k);
  }

  lemma AssistantLinks(p: Policy, ms: seq<Message>, t: Tally, more': seq<Message>)
    requires ms != [] && ms[0].role.Assistant? && t.text <= p.maxTextBytes && AssistantHead(p, ms, t).Ok?
    requires AssistantHead(p, ms, t).value.used <= |ms| && Continues(ms[AssistantHead(p, ms, t).value.used..], more')
    ensures KeepsLinks(Links(ms, []), Links(AssistantHead(p, ms, t).value.output + more', []))
  {
    if CallsOf(ms[0].Parts()) != [] {
      AssistantToolLinks(p, ms, t, more');
    } else {
      HeadTail(ms);
      SoloLinks(ms[0], AssistantHead(p, ms, t).value.output, ms[1..], more');
    }
  }

  lemma SliceRun(ms: seq<Message>, k: nat)
    requires 1 + k <= |ms|
    ensures ms == [ms[0]] + ms[1..][..k] + ms[1 + k..]
  {
  }

  lemma HeadLinks(p: Policy, ms: seq<Message>, t: Tally, more': seq<Message>)
    requires ms != [] && t.text <= p.maxTextBytes && NormalizeHead(p, ms, t).Ok?
    requires Continues(ms[NormalizeHead(p, ms, t).value.used..], more')
    ensures KeepsLinks(Links(ms, []), Links(NormalizeHead(p, ms, t).value.output + more', []))
  {
    if ms[0].role.Assistant? {
      AssistantLinks(p, ms, t, more');
    } else {
      HeadTail(ms);
      SoloLinks(ms[0], PlainHead(p, ms[0], t).value.output, ms[1..], more');
    }
  }

  lemma {:induction false} PassLinks(p: Policy, ms: seq<Message>, t: Tally)
    requires NormalizeFrom(p, ms, t).Ok? && t.text <= p.maxTextBytes
    ensures Continues(ms, NormalizeFrom(p, ms, t).value.output)
    decreases |ms|
  {
    PassMeans(p, ms, t);
    if ms != [] {
      var h := NormalizeHead(p, ms, t).value;
      HeadMeans(p, ms, t, []);
      PassLinks(p, ms[h.used..], h.tally);
      HeadLinks(p, ms, t, NormalizeFrom(p, ms[h.used..], h.tally).value.output);
    }
  }

  /** Renaming ids preserves meaning: every result answers a call of its turn, and the same one it answered before. */
  lemma NormalizationPreservesLinks(p: Policy, ms: seq<Message>)
    requires Normalize(p, ms).Ok?
    ensures KeepsLinks(Links(ms, []), Links(Normalize(p, ms).value.messages, []))
  {
    PassLinks(p, ms, START);
  }
}
