/** What the diagnostics of a pass count, and which losses they do not count. */
module NormalizeDiagnostics {
  import opened Prelude
  import opened Domain
  import opened History
  import opened NormalizeSpec
  import opened Canonical
  import opened NormalizeParts
  import opened NormalizeTurns
  import opened NormalizeProperties

  // ---------------------------------------------------------------- what there is to count

  datatype Loss = SealedThinking | DroppedImage | RemovedAssistant

  function Counted(d: Diagnostics, loss: Loss): nat {
    match loss
    case SealedThinking => d.droppedThinking
    case DroppedImage => d.droppedImages
    case RemovedAssistant => d.removedAssistants
  }

  /** Sealed thinking under a policy that replays none, or an image for a target without vision. */
  predicate PartLost(p: Policy, part: ContentPart, loss: Loss) {
    match loss
    case SealedThinking => p.thinkingReplay.DropAll? && part.Thinking? && part.sealed.Some?
    case DroppedImage => !p.visionInput.Supported? && part.Image?
    case RemovedAssistant => false
  }

  function PartsLost(p: Policy, parts: seq<ContentPart>, loss: Loss): nat {
    if parts == [] then 0
    else PartsLost(p, parts[..|parts| - 1], loss) + if PartLost(p, parts[|parts| - 1], loss) then 1 else 0
  }

  /** An assistant message of which nothing is kept. */
  predicate MessageLost(p: Policy, m: Message, loss: Loss) {
    loss.RemovedAssistant? && m.role.Assistant? && KeptParts(p, m.Parts(), true) == []
  }

  /** How often a history suffers a loss. */
  function Losses(p: Policy, ms: seq<Message>, loss: Loss): nat {
    if ms == [] then 0
    else PartsLost(p, ms[0].Parts(), loss) + (if MessageLost(p, ms[0], loss) then 1 else 0) + Losses(p, ms[1..], loss)
  }

  lemma {:induction false} LossesAppend(p: Policy, a: seq<Message>, b: seq<Message>, loss: Loss)
    ensures Losses(p, a + b, loss) == Losses(p, a, loss) + Losses(p, b, loss)
  {
    if a == [] {
      EmptySides(b);
    } else {
      RegroupHead(a, b);
      LossesAppend(p, a[1..], b, loss);
    }
  }

  lemma LossesOfOne(p: Policy, m: Message, loss: Loss)
    ensures Losses(p, [m], loss) == PartsLost(p, m.Parts(), loss) + if MessageLost(p, m, loss) then 1 else 0
  {
    assert [m][1..] == [];
  }

  // ---------------------------------------------------------------- parts

  lemma PartCounted(p: Policy, part: ContentPart, assistant: bool, f: Filtered, loss: Loss)
    requires FilterPart(p, part, assistant, f).Ok?
    ensures var d, d' := f.tally.diagnostics, FilterPart(p, part, assistant, f).value.tally.diagnostics;
            Counted(d', loss) == Counted(d, loss) + (if PartLost(p, part, loss) then 1 else 0)
              && d'.sanitizedIds == d.sanitizedIds
  {
  }

  lemma {:induction false} PartsCounted(p: Policy, parts: seq<ContentPart>, t: Tally, loss: Loss)
    requires FilterParts(p, parts, false, t).Ok?
    ensures var d := FilterParts(p, parts, false, t).value.tally.diagnostics;
            Counted(d, loss) == Counted(t.diagnostics, loss) + PartsLost(p, parts, loss)
              && d.sanitizedIds == t.diagnostics.sanitizedIds
  {
    if parts != [] {
      var init := parts[..|parts| - 1];
      PartsCounted(p, init, t, loss);
      PartCounted(p, parts[|parts| - 1], false, FilterParts(p, init, false, t).value, loss);
    }
  }

  /** `d` counts what `before` counts, `lost` losses and `renamed` renamed ids. */
  predicate Counts(d: Diagnostics, before: Diagnostics, loss: Loss, lost: nat, renamed: nat) {
    Counted(d, loss) == Counted(before, loss) + lost && d.sanitizedIds == before.sanitizedIds + renamed
  }

  lemma TurnStepCounted(p: Policy, part: ContentPart, turn: Turn, loss: Loss)
    requires TurnStep(p, part, turn).Ok?
    ensures var next := TurnStep(p, part, turn).value;
            && |next.mappings| >= |turn.mappings|
            && Counts(next.tally.diagnostics, turn.tally.diagnostics, loss, if PartLost(p, part, loss) then 1 else 0,
                      |next.mappings| - |turn.mappings|)
  {
    if !part.ToolCallPart? {
      PartCounted(p, part, true, Filtered(turn.parts, turn.tally), loss);
    }
  }

  lemma {:induction false} TurnPartsCounted(p: Policy, parts: seq<ContentPart>, t: Tally, loss: Loss)
    requires TurnParts(p, parts, t).Ok?
    ensures var turn := TurnParts(p, parts, t).value;
            Counts(turn.tally.diagnostics, t.diagnostics, loss, PartsLost(p, parts, loss), |turn.mappings|)
  {
    if parts != [] {
      var init := parts[..|parts| - 1];
      TurnPartsCounted(p, init, t, loss);
      TurnStepCounted(p, parts[|parts| - 1], TurnParts(p, init, t).value, loss);
    }
  }

  lemma {:induction false} AnswersCountNothing(p: Policy, asked: Asked, run: seq<Message>, t: Tally)
    requires AnswerAll(p, asked, run, t).Ok?
    ensures AnswerAll(p, asked, run, t).value.tally.diagnostics == t.diagnostics
  {
    if run != [] {
      var init, last := run[..|run| - 1], run[|run| - 1];
      var before := AnswerAll(p, asked, init, t).value;
      AnswersCountNothing(p, asked, init, t);
      var result := last.payload.result;
      RemapMeans(p, result, ResolveId(asked.mappings, asked.calls, result.callId).value, before.tally);
    }
  }

  // ---------------------------------------------------------------- heads

  /** A head counts what is lost of the messages it consumes, and the ids it renames. */
  ghost predicate HeadCounted(p: Policy, front: seq<Message>, t: Tally, h: Head, loss: Loss) {
    Counts(h.tally.diagnostics, t.diagnostics, loss, Losses(p, front, loss), |h.mappings|)
  }

  lemma {:induction false} RunLosesNothing(p: Policy, run: seq<Message>, loss: Loss)
    requires forall i :: 0 <= i < |run| ==> run[i].role.Tool? && run[i].payload.Answer?
    ensures Losses(p, run, loss) == 0
  {
    if run != [] { RunLosesNothing(p, run[1..], loss); }
  }

  lemma PlainCounted(p: Policy, m: Message, t: Tally, loss: Loss)
    requires PlainHead(p, m, t).Ok? && !m.role.Assistant?
    ensures HeadCounted(p, [m], t, PlainHead(p, m, t).value, loss)
  {
    PartsCounted(p, m.payload.parts, t, loss);
    LossesOfOne(p, m, loss);
  }

  lemma RunAnswers(p: Policy, asked: Asked, rest: seq<Message>, t: Tally)
    requires AnswerAll(p, asked, rest[..LeadingTools(rest)], t).Ok?
    ensures forall i :: 0 <= i < LeadingTools(rest) ==> rest[i].role.Tool? && rest[i].payload.Answer?
  {
    var run := rest[..LeadingTools(rest)];
    AnswerMeans(p, asked, run, t);
    forall i | 0 <= i < |run| ensures rest[i].payload.Answer? {
      assert Remaps(asked, run[i], AnswerAll(p, asked, run, t).value.results[i]);
    }
  }

  lemma ToolHeadCounted(p: Policy, turn: Turn, calls: seq<ToolCall>, rest: seq<Message>, loss: Loss)
    requires ToolHead(p, turn, calls, rest).Ok?
    ensures var h := ToolHead(p, turn, calls, rest).value;
            turn.parts != [] && h.mappings == turn.mappings && h.tally.diagnostics == turn.tally.diagnostics
            && h.used == 1 + LeadingTools(rest)
    ensures Losses(p, rest[..LeadingTools(rest)], loss) == 0
  {
    var asked := Asked(turn.mappings, calls, Expected(turn.mappings, calls).value);
    AnswersCountNothing(p, asked, rest[..LeadingTools(rest)], turn.tally);
    RunAnswers(p, asked, rest, turn.tally);
    RunLosesNothing(p, rest[..LeadingTools(rest)], loss);
  }

  lemma KeptLength(p: Policy, parts: seq<ContentPart>, t: Tally)
    requires TurnParts(p, parts, t).Ok?
    ensures |KeptParts(p, parts, true)| == |TurnParts(p, parts, t).value.parts|
  {
    TurnMeans(p, parts, t);
    assert |Erased(KeptParts(p, parts, true))| == |Erased(TurnParts(p, parts, t).value.parts)|;
  }

  lemma ToolTurnCounted(p: Policy, m: Message, t: Tally, rest: seq<Message>, loss: Loss)
    requires m.role.Assistant? && TurnParts(p, m.Parts(), t).Ok?
    requires ToolHead(p, TurnParts(p, m.Parts(), t).value, CallsOf(m.Parts()), rest).Ok?
    ensures HeadCounted(p, [m] + rest[..LeadingTools(rest)], t,
                        ToolHead(p, TurnParts(p, m.Parts(), t).value, CallsOf(m.Parts()), rest).value, loss)
  {
    ToolHeadCounted(p, TurnParts(p, m.Parts(), t).value, CallsOf(m.Parts()), rest, loss);
    TurnPartsCounted(p, m.Parts(), t, loss);
    KeptLength(p, m.Parts(), t);
    LossesAppend(p, [m], rest[..LeadingTools(rest)], loss);
    LossesOfOne(p, m, loss);
  }

  lemma QuietTurnCounted(p: Policy, m: Message, t: Tally, rest: seq<Message>, loss: Loss)
    requires m.role.Assistant? && TurnHead(p, TurnParts(p, m.Parts(), t), [], rest).Ok?
    ensures HeadCounted(p, [m], t, TurnHead(p, TurnParts(p, m.Parts(), t), [], rest).value, loss)
  {
    TurnPartsCounted(p, m.Parts(), t, loss);
    KeptLength(p, m.Parts(), t);
    LossesOfOne(p, m, loss);
  }

  lemma AssistantCounted(p: Policy, ms: seq<Message>, t: Tally, loss: Loss)
    requires ms != [] && ms[0].role.Assistant? && AssistantHead(p, ms, t).Ok?
    ensures var h := AssistantHead(p, ms, t).value; h.used <= |ms| && HeadCounted(p, ms[..h.used], t, h, loss)
  {
    if CallsOf(ms[0].Parts()) != [] {
      ToolTurnCounted(p, ms[0], t, ms[1..], loss);
      Front(ms, LeadingTools(ms[1..]));
    } else {
      assert ms[..1] == [ms[0]];
      LossesOfOne(p, ms[0], loss);
      if ms[0].Parts() != [] { QuietTurnCounted(p, ms[0], t, ms[1..], loss); }
    }
  }

  lemma HeadCounts(p: Policy, ms: seq<Message>, t: Tally, loss: Loss)
    requires ms != [] && NormalizeHead(p, ms, t).Ok?
    ensures var h := NormalizeHead(p, ms, t).value; HeadCounted(p, ms[..h.used], t, h, loss)
  {
    if ms[0].role.Assistant? {
      AssistantCounted(p, ms, t, loss);
    } else {
      PlainCounted(p, ms[0], t, loss);
      assert ms[..1] == [ms[0]];
    }
  }

  lemma {:induction false} PassCounts(p: Policy, ms: seq<Message>, t: Tally, loss: Loss)
    requires NormalizeFrom(p, ms, t).Ok?
    ensures var pass := NormalizeFrom(p, ms, t).value;
            Counts(pass.tally.diagnostics, t.diagnostics, loss, Losses(p, ms, loss), |pass.mappings|)
    decreases |ms|
  {
    if ms != [] {
      var h := NormalizeHead(p, ms, t).value;
      HeadCounts(p, ms, t, loss);
      PassCounts(p, ms[h.used..], h.tally, loss);
      LossesAppend(p, ms[..h.used], ms[h.used..], loss);
      Halves(ms, h.used);
    }
  }

  /**
   The diagnostics of a pass: sealed thinking and images that the policy drops, assistant messages of
   which nothing is kept, and one sanitized id per recorded mapping.
   */
  lemma DiagnosticsCountLosses(p: Policy, ms: seq<Message>, loss: Loss)
    requires Normalize(p, ms).Ok?
    ensures var r := Normalize(p, ms).value;
            Counted(r.diagnostics, loss) == Losses(p, ms, loss) && r.diagnostics.sanitizedIds == |r.idMappings|
  {
    PassCounts(p, ms, START, loss);
  }

  // ---------------------------------------------------------------- silent losses

  /** A part the policy does not replay. */
  predicate Dropped(p: Policy, part: ContentPart) {
    (part.Thinking? && p.thinkingReplay.DropAll?) || (part.Image? && !p.visionInput.Supported?)
  }

  predicate NothingDropped(p: Policy, parts: seq<ContentPart>) {
    forall i :: 0 <= i < |parts| ==> !Dropped(p, parts[i])
  }

  /** A message that a successful pass leaves whole, ids aside. */
  predicate Whole(p: Policy, m: Message) { m.role.Tool? || (m.Parts() != [] && NothingDropped(p, m.Parts())) }

  lemma {:induction false} FilterWhole(p: Policy, parts: seq<ContentPart>, t: Tally)
    requires FilterParts(p, parts, false, t).Ok? && NothingDropped(p, parts)
    ensures FilterParts(p, parts, false, t).value.parts == parts
  {
    if parts != [] {
      FilterWhole(p, parts[..|parts| - 1], t);
      SplitLast(parts);
    }
  }

  lemma {:induction false} TurnWhole(p: Policy, parts: seq<ContentPart>, t: Tally)
    requires TurnParts(p, parts, t).Ok? && NothingDropped(p, parts) && TurnParts(p, parts, t).value.mappings == []
    ensures TurnParts(p, parts, t).value.parts == parts
  {
    if parts != [] {
      var init, last := parts[..|parts| - 1], parts[|parts| - 1];
      assert TurnParts(p, init, t).value.mappings == [];
      TurnWhole(p, init, t);
      SplitLast(parts);
    }
  }

  lemma ResultsWhole(asked: Asked, run: seq<Message>, results: seq<ToolResult>)
    requires asked.mappings == [] && |run| == |results|
    requires forall j :: 0 <= j < |run| ==> run[j].role.Tool? && Remaps(asked, run[j], results[j])
    ensures AnswerMessages(results) == run
  {
    forall j | 0 <= j < |run| ensures AnswerMessages(results)[j] == run[j] {
      assert Remaps(asked, run[j], results[j]);
    }
  }

  lemma ToolTurnWhole(p: Policy, m: Message, t: Tally, rest: seq<Message>)
    requires m.role.Assistant? && Whole(p, m) && Distinct(IdsOf(CallsOf(m.Parts()))) && t.text <= p.maxTextBytes
    requires TurnParts(p, m.Parts(), t).Ok? && TurnParts(p, m.Parts(), t).value.mappings == []
    requires ToolHead(p, TurnParts(p, m.Parts(), t).value, CallsOf(m.Parts()), rest).Ok?
    ensures ToolHead(p, TurnParts(p, m.Parts(), t).value, CallsOf(m.Parts()), rest).value.output ==
            [m] + rest[..LeadingTools(rest)]
  {
    var turn, run := TurnParts(p, m.Parts(), t).value, rest[..LeadingTools(rest)];
    var results := ToolHeadMeans(p, m.Parts(), t, rest);
    TurnWhole(p, m.Parts(), t);
    ResultsWhole(Asked(turn.mappings, CallsOf(m.Parts()), ToSet(IdsOf(CallsOf(turn.parts)))), run, results);
  }

  lemma AssistantWhole(p: Policy, ms: seq<Message>, t: Tally)
    requires ms != [] && ms[0].role.Assistant? && Whole(p, ms[0]) && t.text <= p.maxTextBytes
    requires AssistantHead(p, ms, t).Ok? && AssistantHead(p, ms, t).value.mappings == []
    ensures var h := AssistantHead(p, ms, t).value; h.used <= |ms| && h.output == ms[..h.used]
  {
    if CallsOf(ms[0].Parts()) != [] {
      ToolTurnWhole(p, ms[0], t, ms[1..]);
      Front(ms, LeadingTools(ms[1..]));
    } else {
      assert ms[..1] == [ms[0]];
      TurnWhole(p, ms[0].Parts(), t);
    }
  }

  lemma HeadWhole(p: Policy, ms: seq<Message>, t: Tally)
    requires ms != [] && Whole(p, ms[0]) && t.text <= p.maxTextBytes
    requires NormalizeHead(p, ms, t).Ok? && NormalizeHead(p, ms, t).value.mappings == []
    ensures var h := NormalizeHead(p, ms, t).value; h.output == ms[..h.used]
  {
    if ms[0].role.Assistant? {
      AssistantWhole(p, ms, t);
    } else {
      assert ms[..1] == [ms[0]];
      FilterWhole(p, ms[0].payload.parts, t);
    }
  }

  lemma {:induction false} PassWhole(p: Policy, ms: seq<Message>, t: Tally)
    requires NormalizeFrom(p, ms, t).Ok? && NormalizeFrom(p, ms, t).value.mappings == [] && t.text <= p.maxTextBytes
    requires forall i :: 0 <= i < |ms| ==> Whole(p, ms[i])
    ensures NormalizeFrom(p, ms, t).value.output == ms
    decreases |ms|
  {
    if ms != [] {
      var h := NormalizeHead(p, ms, t).value;
      HeadMeans(p, ms, t, []);
      HeadWhole(p, ms, t);
      PassWhole(p, ms[h.used..], h.tally);
      Halves(ms, h.used);
    }
  }

  /** Unsealed thinking that is not replayed, or a message outside turns without any part. */
  predicate SilentlyLost(p: Policy, m: Message) {
    && !m.role.Tool?
    && (|| (!m.role.Assistant? && m.Parts() == [])
        || (p.thinkingReplay.DropAll?
            && exists i :: 0 <= i < |m.Parts()| && m.Parts()[i].Thinking? && m.Parts()[i].sealed.None?))
  }

  lemma {:induction false} NothingCounted(p: Policy, parts: seq<ContentPart>, i: nat, loss: Loss)
    requires PartsLost(p, parts, loss) == 0 && i < |parts|
    ensures !PartLost(p, parts[i], loss)
  {
    var n := |parts| - 1;
    if i < n { NothingCounted(p, parts[..n], i, loss); }
  }

  lemma {:induction false} QuietMessages(p: Policy, ms: seq<Message>, i: nat, loss: Loss)
    requires Losses(p, ms, loss) == 0 && i < |ms|
    ensures PartsLost(p, ms[i].Parts(), loss) == 0 && !MessageLost(p, ms[i], loss)
  {
    if i > 0 { QuietMessages(p, ms[1..], i - 1, loss); }
  }

  lemma WholeUnlessSilent(p: Policy, ms: seq<Message>, i: nat)
    requires i < |ms| && (forall loss: Loss :: Losses(p, ms, loss) == 0) && !SilentlyLost(p, ms[i])
    ensures Whole(p, ms[i])
  {
    QuietMessages(p, ms, i, SealedThinking);
    QuietMessages(p, ms, i, DroppedImage);
    QuietMessages(p, ms, i, RemovedAssistant);
    var parts := ms[i].Parts();
    forall k | 0 <= k < |parts| && !ms[i].role.Tool? ensures !Dropped(p, parts[k]) {
      NothingCounted(p, parts, k, SealedThinking);
      NothingCounted(p, parts, k, DroppedImage);
    }
  }

  lemma {:induction false} CanonicalLosesNothing(p: Policy, ms: seq<Message>, i: nat)
    requires WellPaired(p, ms) && i < |ms|
    ensures !SilentlyLost(p, ms[i])
    decreases |ms|
  {
    if ms[0].role.Assistant? {
      var k := 1 + |IdsOf(CallsOf(ms[0].payload.parts))|;
      if 0 < i < k {
        assert IsAnswer(ms[1..k][i - 1]);
      } else if i >= k {
        CanonicalLosesNothing(p, ms[k..], i - k);
      }
    } else if i > 0 {
      CanonicalLosesNothing(p, ms[1..], i - 1);
    }
  }

  /**
   A pass that reports nothing changes nothing, if and only if no message loses unsealed thinking and
   no message outside turns is empty: these are exactly the losses without a diagnostic.
   */
  lemma SilentLosses(p: Policy, ms: seq<Message>)
    requires Normalize(p, ms).Ok? && Normalize(p, ms).value.diagnostics == QUIET
    ensures Normalize(p, ms).value.messages == ms <==> forall i :: 0 <= i < |ms| ==> !SilentlyLost(p, ms[i])
  {
    var r := Normalize(p, ms).value;
    forall loss: Loss ensures Losses(p, ms, loss) == 0 && r.idMappings == [] {
      DiagnosticsCountLosses(p, ms, loss);
    }
    assert Losses(p, ms, SealedThinking) == 0;
    if r.messages == ms {
      FixedPointsAreCanonical(p, ms);
      forall i | 0 <= i < |ms| ensures !SilentlyLost(p, ms[i]) {
        CanonicalLosesNothing(p, ms, i);
      }
    }
    if forall i :: 0 <= i < |ms| ==> !SilentlyLost(p, ms[i]) {
      forall i | 0 <= i < |ms| ensures Whole(p, ms[i]) {
        WholeUnlessSilent(p, ms, i);
      }
      PassWhole(p, ms, START);
    }
  }

  lemma TurnLast(p: Policy, init: seq<ContentPart>, last: ContentPart, t: Tally)
    requires TurnParts(p, init, t).Ok?
    ensures TurnParts(p, init + [last], t) == TurnStep(p, last, TurnParts(p, init, t).value)
  {
    TakeDrop(init, [last]);
  }

  lemma TextStep(p: Policy, text: Bytes)
    requires |text| <= p.maxTextBytes
    ensures TurnStep(p, Text(text), Turn([], [], {}, false, START)) ==
            Ok(Turn([Text(text)], [], {}, false, Tally(|text|, QUIET)))
  {
    FilterOneMore(p, Text(text), true, Filtered([], START));
    EmptySides([Text(text)]);
  }

  lemma ThinkingStep(p: Policy, thought: Bytes)
    requires p.thinkingReplay.DropAll?
    ensures TurnParts(p, [Thinking(thought, None)], START) == Ok(Turn([], [], {}, false, START))
  {
    TurnLast(p, [], Thinking(thought, None), START);
    EmptySides([Thinking(thought, None)]);
  }

  lemma ThoughtfulTurn(p: Policy, thought: Bytes, text: Bytes)
    requires p.thinkingReplay.DropAll? && |text| <= p.maxTextBytes
    ensures TurnParts(p, [Thinking(thought, None)] + [Text(text)], START) ==
            Ok(Turn([Text(text)], [], {}, false, Tally(|text|, QUIET)))
  {
    ThinkingStep(p, thought);
    TurnLast(p, [Thinking(thought, None)], Text(text), START);
    TextStep(p, text);
  }

  lemma NoCalls(thought: Bytes, text: Bytes)
    ensures CallsOf([Thinking(thought, None)] + [Text(text)]) == []
  {
    EmptySides([Thinking(thought, None)]);
    CallsAppend([], Thinking(thought, None));
    CallsAppend([Thinking(thought, None)], Text(text));
  }

  /** Thinking without a seal goes from an answer without a trace. */
  lemma ThinkingVanishes(p: Policy, thought: Bytes, text: Bytes)
    requires p.thinkingReplay.DropAll? && p.maxMessages >= 1 && |text| <= p.maxTextBytes
    ensures Normalize(p, [Message(Assistant, Content([Thinking(thought, None)] + [Text(text)]))])
         == Ok(NormalizedContext([Message(Assistant, Content([Text(text)]))], [], QUIET))
  {
    var ms := [Message(Assistant, Content([Thinking(thought, None)] + [Text(text)]))];
    ThoughtfulTurn(p, thought, text);
    NoCalls(thought, text);
    var output := [Message(Assistant, Content([Text(text)]))];
    var t := Tally(|text|, QUIET);
    assert NormalizeHead(p, ms, START) == Ok(Head(output, [], t, 1));
    assert NormalizeFrom(p, ms[1..], t) == Ok(Pass([], [], t));
    EmptySides(output);
    EmptySides<IdMapping>([]);
    assert NormalizeFrom(p, ms, START) == Ok(Pass(output, [], t));
  }

  /** A message outside turns that has no part goes without a trace, too. */
  lemma EmptyMessageVanishes(p: Policy, role: Role)
    requires role.System? || role.User? || (role.Developer? && p.developerRole.Supported?)
    requires p.maxMessages >= 1
    ensures Normalize(p, [Message(role, Content([]))]) == Ok(NormalizedContext([], [], QUIET))
  {
    var ms := [Message(role, Content([]))];
    assert NormalizeHead(p, ms, START) == Ok(Head([], [], START, 1));
    assert NormalizeFrom(p, ms[1..], START) == Ok(Pass([], [], START));
    EmptySides<Message>([]);
    EmptySides<IdMapping>([]);
    assert NormalizeFrom(p, ms, START) == Ok(Pass([], [], START));
  }
}
