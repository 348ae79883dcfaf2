/** Normal forms: what a successful pass yields, and that a second pass changes nothing. */
module NormalizeProperties {
  import opened Prelude
  import opened Domain
  import opened History
  import opened NormalizeSpec
  import opened Canonical
  import opened NormalizeParts
  import opened NormalizeTurns

  // ---------------------------------------------------------------- heads

  /** A turn with tool calls: its results answer the renamed calls, one for one. */
  ghost predicate ToolTurn(
    p: Policy, parts: seq<ContentPart>, rest: seq<Message>, turn: Turn, results: seq<ToolResult>)
  {
    var ids := IdsOf(CallsOf(turn.parts));
    var run := rest[..LeadingTools(rest)];
    && TurnIds(p, parts, turn)
    && AnswersCalls(AnswerMessages(results), ids)
    && |results| == |run|
    && forall j :: 0 <= j < |run| ==> Remaps(Asked(turn.mappings, CallsOf(parts), ToSet(ids)), run[j], results[j])
  }

  lemma ToolHeadMeans(p: Policy, parts: seq<ContentPart>, t: Tally, rest: seq<Message>)
    returns (results: seq<ToolResult>)
    requires Distinct(IdsOf(CallsOf(parts))) && TurnParts(p, parts, t).Ok? && t.text <= p.maxTextBytes
    requires ToolHead(p, TurnParts(p, parts, t).value, CallsOf(parts), rest).Ok?
    ensures var turn := TurnParts(p, parts, t).value;
            var h := ToolHead(p, turn, CallsOf(parts), rest).value;
            && turn.parts != []
            && h.output == [Message(Assistant, Content(turn.parts))] + AnswerMessages(results)
            && h.used == 1 + LeadingTools(rest)
            && h.tally.text == t.text + TotalText(h.output) <= p.maxTextBytes
            && TurnContent(p, parts, t, turn)
            && ToolTurn(p, parts, rest, turn, results)
  {
    var turn := TurnParts(p, parts, t).value;
    results := ToolHeadPairs(p, parts, t, rest);
    ToolHeadText(Message(Assistant, Content(turn.parts)), results);
  }

  /** The text of a turn is that of its parts and of its results. */
  lemma ToolHeadText(m: Message, results: seq<ToolResult>)
    requires m.payload.Content?
    ensures TotalText([m] + AnswerMessages(results)) == PartsText(m.payload.parts) + ResultsText(results)
  {
    ResultsTextTotal(results);
    TotalTextAppend([m], AnswerMessages(results));
    assert TotalText([m]) == PartsText(m.payload.parts);
  }

  lemma ToolHeadPairs(p: Policy, parts: seq<ContentPart>, t: Tally, rest: seq<Message>)
    returns (results: seq<ToolResult>)
    requires Distinct(IdsOf(CallsOf(parts))) && TurnParts(p, parts, t).Ok? && t.text <= p.maxTextBytes
    requires ToolHead(p, TurnParts(p, parts, t).value, CallsOf(parts), rest).Ok?
    ensures var turn := TurnParts(p, parts, t).value;
            var h := ToolHead(p, turn, CallsOf(parts), rest).value;
            && turn.parts != []
            && h.output == [Message(Assistant, Content(turn.parts))] + AnswerMessages(results)
            && h.used == 1 + LeadingTools(rest)
            && h.tally.text == t.text + PartsText(turn.parts) + ResultsText(results) <= p.maxTextBytes
            && TurnContent(p, parts, t, turn)
            && ToolTurn(p, parts, rest, turn, results)
  {
    var turn, calls := TurnParts(p, parts, t).value, CallsOf(parts);
    var ids' := IdsOf(CallsOf(turn.parts));
    var run := rest[..LeadingTools(rest)];
    TurnMeans(p, parts, t);
    ExpectedAll(IdsOf(calls), ids', calls);
    var asked := Asked(turn.mappings, calls, ToSet(ids'));
    var a := AnswerAll(p, asked, run, turn.tally).value;
    results := a.results;
    AnswerMeans(p, asked, run, turn.tally);
    AllAnswered(p, asked, run, turn.tally, a, ids');
  }

  lemma ExpectedAll(ids: seq<Bytes>, ids': seq<Bytes>, calls: seq<ToolCall>)
    requires |calls| == |ids| == |ids'| && ids == IdsOf(calls) && Distinct(ids) && Distinct(ids')
    ensures Expected(Changes(ids, ids'), calls) == Ok(ToSet(ids'))
  {
    ExpectedMeans(ids, ids', calls, |calls|);
    assert calls[..|calls|] == calls && ids'[..|calls|] == ids';
  }

  lemma PairTurn(p: Policy, m: Message, run: seq<Message>, more: seq<Message>)
    requires m.role.Assistant? && TurnFits(p, m) && AnswersCalls(run, IdsOf(CallsOf(m.payload.parts)))
             && WellPaired(p, more)
    ensures WellPaired(p, [m] + run + more)
  {
    var all, ids := [m] + run + more, IdsOf(CallsOf(m.payload.parts));
    assert all[1..1 + |ids|] == run && all[1 + |ids|..] == more;
  }

  lemma PairPlain(p: Policy, m: Message, more: seq<Message>)
    requires !m.role.Assistant? && !m.role.Tool? && PlainFits(p, m) && WellPaired(p, more)
    ensures WellPaired(p, [m] + more)
  {
    TakeDrop([m], more);
  }

  /** What a head adds to a history in normal form. */
  ghost predicate HeadFits(p: Policy, t: Tally, h: Head, more: seq<Message>) {
    && WellPaired(p, h.output + more)
    && h.tally.text == t.text + TotalText(h.output) <= p.maxTextBytes
    && |h.output| <= h.used
  }

  lemma PlainHeadFits(p: Policy, m: Message, t: Tally, more: seq<Message>)
    requires PlainHead(p, m, t).Ok? && !m.role.Assistant? && !m.role.Tool? && t.text <= p.maxTextBytes
             && WellPaired(p, more)
    ensures HeadFits(p, t, PlainHead(p, m, t).value, more)
  {
    FilterMeans(p, m.payload.parts, t);
    var f := FilterParts(p, m.payload.parts, false, t).value;
    if f.parts == [] {
      EmptySides(more);
    } else {
      PairPlain(p, Message(m.role, Content(f.parts)), more);
    }
  }

  lemma QuietTurnFits(p: Policy, parts: seq<ContentPart>, t: Tally, more: seq<Message>)
    requires TurnParts(p, parts, t).Ok? && CallsOf(parts) == [] && t.text <= p.maxTextBytes && WellPaired(p, more)
    ensures var turn := TurnParts(p, parts, t).value;
            && CallsOf(turn.parts) == []
            && turn.tally.text == t.text + PartsText(turn.parts) <= p.maxTextBytes
            && (turn.parts != [] ==> WellPaired(p, [Message(Assistant, Content(turn.parts))] + more))
  {
    TurnMeans(p, parts, t);
    var turn := TurnParts(p, parts, t).value;
    if turn.parts != [] {
      var m := Message(Assistant, Content(turn.parts));
      EmptySides([m]);
      assert AnswersCalls([], []);
      assert IdsOf(CallsOf(turn.parts)) == [];
      PairTurn(p, m, [], more);
    }
  }

  lemma TurnHeadFits(p: Policy, parts: seq<ContentPart>, t: Tally, rest: seq<Message>, more: seq<Message>)
    requires Distinct(IdsOf(CallsOf(parts))) && t.text <= p.maxTextBytes && WellPaired(p, more)
    requires TurnHead(p, TurnParts(p, parts, t), CallsOf(parts), rest).Ok?
    ensures HeadFits(p, t, TurnHead(p, TurnParts(p, parts, t), CallsOf(parts), rest).value, more)
  {
    if CallsOf(parts) == [] {
      EmptySides(more);
      QuietTurnFits(p, parts, t, more);
    } else {
      var results := ToolHeadMeans(p, parts, t, rest);
      var m := Message(Assistant, Content(TurnParts(p, parts, t).value.parts));
      PairTurn(p, m, AnswerMessages(results), more);
    }
  }

  lemma AssistantHeadFits(p: Policy, ms: seq<Message>, t: Tally, more: seq<Message>)
    requires ms != [] && AssistantHead(p, ms, t).Ok? && t.text <= p.maxTextBytes && WellPaired(p, more)
    ensures HeadFits(p, t, AssistantHead(p, ms, t).value, more)
  {
    if ms[0].Parts() == [] {
      EmptySides(more);
    } else {
      TurnHeadFits(p, ms[0].Parts(), t, ms[1..], more);
    }
  }

  lemma HeadMeans(p: Policy, ms: seq<Message>, t: Tally, more: seq<Message>)
    requires ms != [] && NormalizeHead(p, ms, t).Ok? && t.text <= p.maxTextBytes && WellPaired(p, more)
    ensures HeadFits(p, t, NormalizeHead(p, ms, t).value, more)
  {
    if ms[0].role.Assistant? {
      AssistantHeadFits(p, ms, t, more);
    } else {
      PlainHeadFits(p, ms[0], t, more);
    }
  }

  // ---------------------------------------------------------------- the pass yields normal forms

  lemma Front(ms: seq<Message>, k: nat)
    requires k < |ms|
    ensures [ms[0]] + ms[1..][..k] == ms[..1 + k]
  {
  }

  lemma {:induction false} PassMeans(p: Policy, ms: seq<Message>, t: Tally)
    requires NormalizeFrom(p, ms, t).Ok? && t.text <= p.maxTextBytes
    ensures var pass := NormalizeFrom(p, ms, t).value;
            && WellPaired(p, pass.output)
            && pass.tally.text == t.text + TotalText(pass.output) <= p.maxTextBytes
            && |pass.output| <= |ms|
    decreases |ms|
  {
    if ms != [] {
      HeadMeans(p, ms, t, []);
      var h := NormalizeHead(p, ms, t).value;
      var rest := NormalizeFrom(p, ms[h.used..], h.tally).value;
      PassMeans(p, ms[h.used..], h.tally);
      HeadMeans(p, ms, t, rest.output);
      TotalTextAppend(h.output, rest.output);
    }
  }

  /** The output of a successful pass is canonical. */
  lemma OutputIsCanonical(p: Policy, ms: seq<Message>)
    requires Normalize(p, ms).Ok?
    ensures IsCanonical(p, Normalize(p, ms).value.messages)
  {
    PassMeans(p, ms, START);
  }

  /** A pass never grows a history, so the second check of the message limit never fires. */
  lemma SecondLimitCheckIsIdle(p: Policy, ms: seq<Message>)
    requires |ms| <= p.maxMessages
    ensures Normalize(p, ms).Ok? <==> NormalizeFrom(p, ms, START).Ok?
  {
    if NormalizeFrom(p, ms, START).Ok? { PassMeans(p, ms, START); }
  }

  // ---------------------------------------------------------------- normal forms pass unchanged

  lemma {:induction false} RunLength(run: seq<Message>, more: seq<Message>)
    requires forall i :: 0 <= i < |run| ==> run[i].role.Tool?
    requires more == [] || !more[0].role.Tool?
    ensures LeadingTools(run + more) == |run|
  {
    if run == [] {
      EmptySides(more);
    } else {
      RegroupHead(run, more);
      RunLength(run[1..], more);
    }
  }

  /** `run` is the block of tool messages at the front. */
  predicate Leads(run: seq<Message>, ms: seq<Message>) {
    LeadingTools(ms) == |run| && ms[..|run|] == run
  }

  lemma AnswersLead(run: seq<Message>, more: seq<Message>, ids: seq<Bytes>)
    requires AnswersCalls(run, ids)
    requires more == [] || !more[0].role.Tool?
    ensures Leads(run, run + more)
  {
    forall i | 0 <= i < |run| ensures run[i].role.Tool? { assert IsAnswer(run[i]); }
    RunLength(run, more);
    TakeDrop(run, more);
  }

  /** `h` is the message with `parts` followed by `run`, as they are. */
  predicate Untouched(h: Result<Head, Failure>, parts: seq<ContentPart>, run: seq<Message>, t: Tally) {
    h == Ok(Head([Message(Assistant, Content(parts))] + run, [], t.(text := t.text + TotalText(run)), 1 + |run|))
  }

  lemma ToolHeadIs(p: Policy, turn: Turn, asked: Asked, run: seq<Message>, rest: seq<Message>, a: Answers)
    requires turn.parts != [] && turn.mappings == asked.mappings == []
             && Expected(asked.mappings, asked.calls) == Ok(asked.expected)
    requires Leads(run, rest)
    requires AnswerAll(p, asked, run, turn.tally) == Ok(a)
    requires a.pending == {} && AnswerMessages(a.results) == run
             && a.tally == turn.tally.(text := turn.tally.text + TotalText(run))
    ensures Untouched(ToolHead(p, turn, asked.calls, rest), turn.parts, run, turn.tally)
  {
    assert asked == Asked(turn.mappings, asked.calls, asked.expected);
  }

  lemma RunReplies(p: Policy, calls: seq<ToolCall>, run: seq<Message>, t: Tally) returns (a: Answers)
    requires AnswersCalls(run, IdsOf(calls)) && t.text + TotalText(run) <= p.maxTextBytes
    ensures a.pending == {} && AnswerMessages(a.results) == run && a.tally == t.(text := t.text + TotalText(run))
    ensures AnswerAll(p, Asked([], calls, ToSet(IdsOf(calls))), run, t) == Ok(a)
  {
    AnswerKeeps(p, calls, run, t);
    a := Replied(ToSet(IdsOf(calls)), run, t);
    assert ToSet(IdsOf(calls)) - ToSet(AnswerIds(run)) == {};
  }

  lemma ExpectedSame(calls: seq<ToolCall>)
    requires Distinct(IdsOf(calls))
    ensures Expected([], calls) == Ok(ToSet(IdsOf(calls)))
  {
    NoChanges(IdsOf(calls));
    ExpectedAll(IdsOf(calls), IdsOf(calls), calls);
  }

  lemma ToolHeadKeeps(p: Policy, turn: Turn, calls: seq<ToolCall>, run: seq<Message>, rest: seq<Message>)
    requires turn.parts != [] && turn.mappings == [] && Distinct(IdsOf(calls)) && AnswersCalls(run, IdsOf(calls))
    requires Leads(run, rest) && turn.tally.text + TotalText(run) <= p.maxTextBytes
    ensures Untouched(ToolHead(p, turn, calls, rest), turn.parts, run, turn.tally)
  {
    ExpectedSame(calls);
    var a := RunReplies(p, calls, run, turn.tally);
    ToolHeadIs(p, turn, Asked([], calls, ToSet(IdsOf(calls))), run, rest, a);
  }

  lemma TurnHeadKeeps(p: Policy, turn: Turn, calls: seq<ToolCall>, run: seq<Message>, rest: seq<Message>)
    requires turn.parts != [] && turn.mappings == [] && Distinct(IdsOf(calls)) && AnswersCalls(run, IdsOf(calls))
    requires Leads(run, rest) && turn.tally.text + TotalText(run) <= p.maxTextBytes
    ensures Untouched(TurnHead(p, Ok(turn), calls, rest), turn.parts, run, turn.tally)
  {
    if calls != [] {
      ToolHeadKeeps(p, turn, calls, run, rest);
    } else {
      assert run == [];
      EmptySides([Message(Assistant, Content(turn.parts))]);
    }
  }

  lemma AssistantHeadIs(p: Policy, ms: seq<Message>, t: Tally, turn: Turn)
    requires ms != [] && ms[0].Parts() != [] && Distinct(IdsOf(CallsOf(ms[0].Parts())))
    requires TurnParts(p, ms[0].Parts(), t) == Ok(turn)
    ensures AssistantHead(p, ms, t) == TurnHead(p, Ok(turn), CallsOf(ms[0].Parts()), ms[1..])
  {
  }

  /** A canonical turn comes out as it is. */
  lemma CanonicalTurn(p: Policy, ms: seq<Message>, t: Tally) returns (turn: Turn)
    requires ms != [] && ms[0].role.Assistant? && TurnFits(p, ms[0]) && t.text + MessageText(ms[0]) <= p.maxTextBytes
    ensures AssistantHead(p, ms, t) == TurnHead(p, Ok(turn), CallsOf(ms[0].Parts()), ms[1..])
    ensures ms[0] == Message(Assistant, Content(turn.parts)) && turn.parts != [] && turn.mappings == []
    ensures turn.tally == t.(text := t.text + MessageText(ms[0]))
    ensures Distinct(IdsOf(CallsOf(ms[0].Parts())))
  {
    TurnKeeps(p, ms[0].payload.parts, t);
    turn := Settled(ms[0].payload.parts, t);
    AssistantHeadIs(p, ms, t, turn);
  }

  lemma AssistantHeadKeeps(p: Policy, ms: seq<Message>, run: seq<Message>, t: Tally)
    requires ms != [] && Leads(run, ms[1..])
    requires ms[0].role.Assistant? && TurnFits(p, ms[0]) && AnswersCalls(run, IdsOf(CallsOf(ms[0].Parts())))
    requires t.text + MessageText(ms[0]) + TotalText(run) <= p.maxTextBytes
    ensures Untouched(AssistantHead(p, ms, t), ms[0].Parts(), run, t.(text := t.text + MessageText(ms[0])))
  {
    var turn := CanonicalTurn(p, ms, t);
    TurnHeadKeeps(p, turn, CallsOf(ms[0].Parts()), run, ms[1..]);
  }

  lemma SliceTurn(ms: seq<Message>, k: nat)
    requires 1 + k <= |ms|
    ensures ms == [ms[0]] + ms[1..1 + k] + ms[1 + k..]
    ensures ms[..1 + k] == [ms[0]] + ms[1..1 + k]
    ensures ms[1..] == ms[1..1 + k] + ms[1 + k..]
  {
  }

  lemma MoreStartsAfresh(p: Policy, more: seq<Message>)
    requires WellPaired(p, more)
    ensures more == [] || !more[0].role.Tool?
  {
  }

  /** The turn at the front of a history in normal form, its results and what follows. */
  lemma FrontTurn(p: Policy, ms: seq<Message>) returns (run: seq<Message>, more: seq<Message>)
    requires ms != [] && ms[0].role.Assistant? && WellPaired(p, ms)
    ensures ms == [ms[0]] + run + more && ms[..1 + |run|] == [ms[0]] + run && ms[1 + |run|..] == more
    ensures TurnFits(p, ms[0]) && AnswersCalls(run, IdsOf(CallsOf(ms[0].Parts()))) && WellPaired(p, more)
    ensures Leads(run, ms[1..])
  {
    var ids := IdsOf(CallsOf(ms[0].payload.parts));
    run, more := ms[1..1 + |ids|], ms[1 + |ids|..];
    SliceTurn(ms, |ids|);
    MoreStartsAfresh(p, more);
    AnswersLead(run, more, ids);
  }

  lemma PlainHeadKeeps(p: Policy, m: Message, t: Tally)
    requires !m.role.Assistant? && !m.role.Tool? && PlainFits(p, m) && t.text + MessageText(m) <= p.maxTextBytes
    ensures PlainHead(p, m, t) == Ok(Head([m], [], t.(text := t.text + MessageText(m)), 1))
  {
    FilterKeeps(p, m.payload.parts, false, t);
  }

  lemma TextSplit(ms: seq<Message>, k: nat)
    requires k <= |ms|
    ensures TotalText(ms[..k]) + TotalText(ms[k..]) == TotalText(ms)
  {
    TotalTextAppend(ms[..k], ms[k..]);
    Halves(ms, k);
  }

  /** The part of a history in normal form that one head consumes comes out unchanged. */
  predicate HeadUntouched(ms: seq<Message>, t: Tally, h: Head) {
    && 1 <= h.used <= |ms|
    && h.output == ms[..h.used]
    && h.mappings == []
    && h.tally == t.(text := t.text + TotalText(ms[..h.used]))
  }

  lemma TurnKept(p: Policy, ms: seq<Message>, t: Tally) returns (h: Head)
    requires ms != [] && ms[0].role.Assistant? && WellPaired(p, ms) && t.text + TotalText(ms) <= p.maxTextBytes
    ensures AssistantHead(p, ms, t) == Ok(h) && HeadUntouched(ms, t, h) && WellPaired(p, ms[h.used..])
  {
    var run, more := FrontTurn(p, ms);
    TurnText(ms[0], run, more);
    AssistantHeadKeeps(p, ms, run, t);
    h := Head([ms[0]] + run, [], t.(text := t.text + MessageText(ms[0]) + TotalText(run)), 1 + |run|);
  }

  lemma PlainKept(p: Policy, ms: seq<Message>, t: Tally) returns (h: Head)
    requires ms != [] && !ms[0].role.Assistant? && WellPaired(p, ms) && t.text + TotalText(ms) <= p.maxTextBytes
    ensures PlainHead(p, ms[0], t) == Ok(h) && HeadUntouched(ms, t, h) && WellPaired(p, ms[h.used..])
  {
    PlainHeadKeeps(p, ms[0], t);
    h := Head([ms[0]], [], t.(text := t.text + MessageText(ms[0])), 1);
    assert ms[..1] == [ms[0]];
  }

  lemma HeadKeeps(p: Policy, ms: seq<Message>, t: Tally) returns (h: Head)
    requires ms != [] && WellPaired(p, ms) && t.text + TotalText(ms) <= p.maxTextBytes
    ensures NormalizeHead(p, ms, t) == Ok(h) && HeadUntouched(ms, t, h) && WellPaired(p, ms[h.used..])
  {
    if ms[0].role.Assistant? {
      h := TurnKept(p, ms, t);
    } else {
      h := PlainKept(p, ms, t);
    }
  }

  lemma TurnText(m: Message, run: seq<Message>, more: seq<Message>)
    ensures TotalText([m] + run) == MessageText(m) + TotalText(run)
    ensures TotalText([m] + run + more) == MessageText(m) + TotalText(run) + TotalText(more)
  {
    TotalTextAppend([m] + run, more);
    TotalTextAppend([m], run);
    assert TotalText([m]) == MessageText(m);
  }

  predicate PassUntouched(ms: seq<Message>, t: Tally, pass: Pass) {
    pass.output == ms && pass.mappings == [] && pass.tally == t.(text := t.text + TotalText(ms))
  }

  lemma PassIs(p: Policy, ms: seq<Message>, t: Tally, h: Head, rest: Pass)
    requires ms != [] && NormalizeHead(p, ms, t) == Ok(h) && NormalizeFrom(p, ms[h.used..], h.tally) == Ok(rest)
    ensures NormalizeFrom(p, ms, t) == Ok(Pass(h.output + rest.output, h.mappings + rest.mappings, rest.tally))
  {
  }

  lemma PassJoins(ms: seq<Message>, t: Tally, h: Head, rest: Pass)
    requires HeadUntouched(ms, t, h) && PassUntouched(ms[h.used..], h.tally, rest)
    ensures PassUntouched(ms, t, Pass(h.output + rest.output, h.mappings + rest.mappings, rest.tally))
  {
    EmptySides(h.mappings);
    TextSplit(ms, h.used);
    Halves(ms, h.used);
  }

  lemma {:induction false} CanonicalPasses(p: Policy, ms: seq<Message>, t: Tally) returns (pass: Pass)
    requires WellPaired(p, ms) && t.text + TotalText(ms) <= p.maxTextBytes
    ensures NormalizeFrom(p, ms, t) == Ok(pass) && PassUntouched(ms, t, pass)
    decreases |ms|
  {
    if ms == [] {
      pass := Pass([], [], t);
    } else {
      var h := HeadKeeps(p, ms, t);
      TextSplit(ms, h.used);
      var rest := CanonicalPasses(p, ms[h.used..], h.tally);
      PassIs(p, ms, t, h, rest);
      PassJoins(ms, t, h, rest);
      pass := Pass(h.output + rest.output, h.mappings + rest.mappings, rest.tally);
    }
  }

  /** A history is left exactly as it is, without a diagnostic, if and only if it is canonical. */
  lemma FixedPointsAreCanonical(p: Policy, ms: seq<Message>)
    ensures IsCanonical(p, ms) <==> Normalize(p, ms) == Ok(NormalizedContext(ms, [], QUIET))
  {
    if IsCanonical(p, ms) {
      var pass := CanonicalPasses(p, ms, START);
    }
    if Normalize(p, ms) == Ok(NormalizedContext(ms, [], QUIET)) {
      OutputIsCanonical(p, ms);
    }
  }

  /** Normalizing a second time, under the same policy and limits, changes nothing and reports nothing. */
  lemma NormalizationIsIdempotent(p: Policy, ms: seq<Message>)
    requires Normalize(p, ms).Ok?
    ensures var once := Normalize(p, ms).value.messages;
            Normalize(p, once) == Ok(NormalizedContext(once, [], QUIET))
  {
    OutputIsCanonical(p, ms);
    FixedPointsAreCanonical(p, Normalize(p, ms).value.messages);
  }
}
