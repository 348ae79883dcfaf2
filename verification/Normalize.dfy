/** The normalizer as it runs: loops over parts, calls, results and messages, refining the specification. */
module Normalizing {
  import opened Prelude
  import opened Domain
  import opened History
  import opened NormalizeSpec

  // A loop that stops at an error has computed the error of the whole.

  lemma {:induction false} FilterPartsStops(p: Policy, parts: seq<ContentPart>, assistant: bool, t: Tally, k: nat)
    requires k <= |parts| && FilterParts(p, parts[..k], assistant, t).Err?
    ensures FilterParts(p, parts, assistant, t) == FilterParts(p, parts[..k], assistant, t)
    decreases |parts|
  {
    if k == |parts| {
      assert parts[..k] == parts;
    } else {
      var init := parts[..|parts| - 1];
      assert init[..k] == parts[..k];
      FilterPartsStops(p, init, assistant, t, k);
    }
  }

  lemma {:induction false} TurnPartsStops(p: Policy, parts: seq<ContentPart>, t: Tally, k: nat)
    requires k <= |parts| && TurnParts(p, parts[..k], t).Err?
    ensures TurnParts(p, parts, t) == TurnParts(p, parts[..k], t)
    decreases |parts|
  {
    if k == |parts| {
      assert parts[..k] == parts;
    } else {
      var init := parts[..|parts| - 1];
      assert init[..k] == parts[..k];
      TurnPartsStops(p, init, t, k);
    }
  }

  lemma {:induction false} ExpectedStops(mappings: seq<IdMapping>, calls: seq<ToolCall>, k: nat)
    requires k <= |calls| && Expected(mappings, calls[..k]).Err?
    ensures Expected(mappings, calls) == Expected(mappings, calls[..k])
    decreases |calls|
  {
    if k == |calls| {
      assert calls[..k] == calls;
    } else {
      var init := calls[..|calls| - 1];
      assert init[..k] == calls[..k];
      ExpectedStops(mappings, init, k);
    }
  }

  lemma {:induction false} AnswerTextStops(p: Policy, content: seq<ContentPart>, t: Tally, k: nat)
    requires k <= |content| && AnswerText(p, content[..k], t).Err?
    ensures AnswerText(p, content, t) == AnswerText(p, content[..k], t)
    decreases |content|
  {
    if k == |content| {
      assert content[..k] == content;
    } else {
      var init := content[..|content| - 1];
      assert init[..k] == content[..k];
      AnswerTextStops(p, init, t, k);
    }
  }

  lemma {:induction false} AnswerAllStops(p: Policy, asked: Asked, ms: seq<Message>, t: Tally, k: nat)
    requires k <= |ms| && AnswerAll(p, asked, ms[..k], t).Err?
    ensures AnswerAll(p, asked, ms, t) == AnswerAll(p, asked, ms[..k], t)
    decreases |ms|
  {
    if k == |ms| {
      assert ms[..k] == ms;
    } else {
      var init := ms[..|ms| - 1];
      assert init[..k] == ms[..k];
      AnswerAllStops(p, asked, init, t, k);
    }
  }

  lemma {:induction false} CallsGrow(parts: seq<ContentPart>, k: nat)
    requires k <= |parts|
    ensures CallsOf(parts[..k]) <= CallsOf(parts)
    decreases |parts|
  {
    if k == |parts| {
      assert parts[..k] == parts;
    } else {
      var init := parts[..|parts| - 1];
      assert init[..k] == parts[..k];
      CallsGrow(init, k);
    }
  }

  // ---------------------------------------------------------------- parts

  method CollectToolCalls(content: seq<ContentPart>) returns (r: Result<seq<ToolCall>, Failure>)
    ensures r == if Distinct(IdsOf(CallsOf(content))) then Ok(CallsOf(content)) else Err(DuplicateToolCall)
  {
    var calls: seq<ToolCall>, seen: set<Bytes> := [], {};
    var i := 0;
    while i < |content|
      invariant 0 <= i <= |content|
      invariant calls == CallsOf(content[..i]) && Distinct(IdsOf(calls))
      invariant seen == ToSet(IdsOf(calls))
    {
      TakeNext(content, i);
      if content[i].ToolCallPart? {
        var call := content[i].call;
        if call.id in seen {
          CallsGrow(content, i + 1);
          RepeatedId(calls, call, CallsOf(content));
          return Err(DuplicateToolCall);
        }
        NewId(calls, call);
        seen := seen + {call.id};
        calls := calls + [call];
      }
      i := i + 1;
    }
    assert content[..i] == content;
    return Ok(calls);
  }

  lemma NewId(calls: seq<ToolCall>, call: ToolCall)
    requires Distinct(IdsOf(calls)) && call.id !in ToSet(IdsOf(calls))
    ensures Distinct(IdsOf(calls + [call])) && ToSet(IdsOf(calls + [call])) == ToSet(IdsOf(calls)) + {call.id}
  {
    assert IdsOf(calls + [call]) == IdsOf(calls) + [call.id];
  }

  lemma RepeatedId(calls: seq<ToolCall>, call: ToolCall, all: seq<ToolCall>)
    requires call.id in ToSet(IdsOf(calls)) && calls + [call] <= all
    ensures !Distinct(IdsOf(all))
  {
    var k :| 0 <= k < |calls| && IdsOf(calls)[k] == call.id;
    assert all[k] == calls[k] && all[|calls|] == call;
  }

  method NormalizePlainMessage(p: Policy, m: Message, t: Tally) returns (r: Result<Head, Failure>)
    ensures r == PlainMessage(p, m, t)
  {
    if m.payload.Answer? {
      return Err(InvalidMessageOrder);
    }
    var parts := m.payload.parts;
    var f := Filtered([], t);
    var i := 0;
    while i < |parts|
      invariant 0 <= i <= |parts|
      invariant FilterParts(p, parts[..i], false, t) == Ok(f)
    {
      TakeNext(parts, i);
      var step := FilterPart(p, parts[i], false, f);
      if step.Err? {
        FilterPartsStops(p, parts, false, t, i + 1);
        return Err(step.error);
      }
      f := step.value;
      i := i + 1;
    }
    assert parts[..i] == parts;
    return Ok(Head(if f.parts == [] then [] else [Message(m.role, Content(f.parts))], [], f.tally, 1));
  }

  method NormalizeAssistantMessage(p: Policy, content: seq<ContentPart>, t: Tally) returns (r: Result<Turn, Failure>)
    ensures r == TurnParts(p, content, t)
  {
    var turn := Turn([], [], {}, false, t);
    var i := 0;
    while i < |content|
      invariant 0 <= i <= |content|
      invariant TurnParts(p, content[..i], t) == Ok(turn)
    {
      TakeNext(content, i);
      var step := TurnStep(p, content[i], turn);
      if step.Err? {
        TurnPartsStops(p, content, t, i + 1);
        return step;
      }
      turn := step.value;
      i := i + 1;
    }
    assert content[..i] == content;
    return Ok(turn);
  }

  // ---------------------------------------------------------------- results

  method ExpectedIds(mappings: seq<IdMapping>, calls: seq<ToolCall>) returns (r: Result<set<Bytes>, Failure>)
    ensures r == Expected(mappings, calls)
  {
    var expected: set<Bytes> := {};
    var i := 0;
    while i < |calls|
      invariant 0 <= i <= |calls|
      invariant Expected(mappings, calls[..i]) == Ok(expected)
    {
      TakeNext(calls, i);
      var id := Lookup(mappings, calls[i].id);
      if id in expected {
        ExpectedStops(mappings, calls, i + 1);
        return Err(DuplicateToolCall);
      }
      expected := expected + {id};
      i := i + 1;
    }
    assert calls[..i] == calls;
    return Ok(expected);
  }

  method RemapToolResult(p: Policy, result: ToolResult, id: Bytes, t: Tally)
    returns (r: Result<(ToolResult, Tally), Failure>)
    ensures r == RemapResult(p, result, id, t)
  {
    var tally, i := t, 0;
    while i < |result.content|
      invariant 0 <= i <= |result.content|
      invariant AnswerText(p, result.content[..i], t) == Ok(tally)
    {
      TakeNext(result.content, i);
      var added := if result.content[i].Text? then AddTextBytes(p, tally, |result.content[i].text|)
        else Err(UnsupportedContent);
      if added.Err? {
        AnswerTextStops(p, result.content, t, i + 1);
        return Err(added.error);
      }
      tally := added.value;
      i := i + 1;
    }
    assert result.content[..i] == result.content;
    if !ValidAnswer(result.content) {
      return Err(UnsupportedContent);
    }
    return Ok((result.(callId := id), tally));
  }

  method NormalizeResult(p: Policy, asked: Asked, m: Message, a: Answers) returns (r: Result<Answers, Failure>)
    ensures r == AnswerStep(p, asked, m, a)
  {
    if !m.payload.Answer? {
      return Err(InvalidMessageOrder);
    }
    var id := ResolveId(asked.mappings, asked.calls, m.payload.result.callId);
    if id.Err? {
      return Err(id.error);
    }
    if id.value !in a.pending {
      if id.value in asked.expected || exists r :: r in a.results && r.callId == id.value {
        return Err(DuplicateToolResult);
      }
      return Err(UnknownToolCall);
    }
    var remapped := RemapToolResult(p, m.payload.result, id.value, a.tally);
    if remapped.Err? {
      return Err(remapped.error);
    }
    return Ok(Answers(a.pending - {id.value}, a.results + [remapped.value.0], remapped.value.1));
  }

  /** Reads the run of tool messages after an assistant message. */
  method NormalizeResults(p: Policy, asked: Asked, run: seq<Message>, t: Tally) returns (r: Result<Answers, Failure>)
    ensures r == AnswerAll(p, asked, run, t)
  {
    var a := Answers(asked.expected, [], t);
    var i := 0;
    while i < |run|
      invariant 0 <= i <= |run|
      invariant AnswerAll(p, asked, run[..i], t) == Ok(a)
    {
      TakeNext(run, i);
      var step := NormalizeResult(p, asked, run[i], a);
      if step.Err? {
        AnswerAllStops(p, asked, run, t, i + 1);
        return step;
      }
      a := step.value;
      i := i + 1;
    }
    assert run[..i] == run;
    return Ok(a);
  }

  // ---------------------------------------------------------------- turns and the pass

  method NormalizeToolTurn(p: Policy, turn: Turn, calls: seq<ToolCall>, rest: seq<Message>)
    returns (r: Result<Head, Failure>)
    ensures r == ToolHead(p, turn, calls, rest)
  {
    if turn.parts == [] {
      return Err(InvalidMessageOrder);
    }
    var expected := ExpectedIds(turn.mappings, calls);
    if expected.Err? {
      return Err(expected.error);
    }
    var k := LeadingTools(rest);
    var answers := NormalizeResults(p, Asked(turn.mappings, calls, expected.value), rest[..k], turn.tally);
    if answers.Err? {
      return Err(answers.error);
    }
    if answers.value.pending != {} {
      return Err(MissingToolResult);
    }
    return Ok(Head([Message(Assistant, Content(turn.parts))] + AnswerMessages(answers.value.results),
                   turn.mappings, answers.value.tally, 1 + k));
  }

  method NormalizeAssistantTurn(p: Policy, ms: seq<Message>, t: Tally) returns (r: Result<Head, Failure>)
    requires ms != []
    ensures r == AssistantHead(p, ms, t)
  {
    var content := ms[0].Parts();
    var calls := CollectToolCalls(content);
    if calls.Err? {
      return Err(calls.error);
    }
    if content == [] {
      return Ok(Head([], [], Removed(t), 1));
    }
    var turn := NormalizeAssistantMessage(p, content, t);
    if turn.Err? {
      return Err(turn.error);
    }
    if calls.value == [] {
      if turn.value.parts == [] {
        return Ok(Head([], turn.value.mappings, Removed(turn.value.tally), 1));
      }
      return Ok(Head([Message(Assistant, Content(turn.value.parts))], turn.value.mappings, turn.value.tally, 1));
    }
    r := NormalizeToolTurn(p, turn.value, calls.value, ms[1..]);
  }

  method NormalizeNext(p: Policy, ms: seq<Message>, t: Tally) returns (r: Result<Head, Failure>)
    requires ms != []
    ensures r == NormalizeHead(p, ms, t)
  {
    match ms[0].role {
      case Tool =>
        r := Err(ResultBeforeCall);
      case Developer =>
        if !p.developerRole.Supported? {
          return Err(UnsupportedContent);
        }
        r := NormalizePlainMessage(p, ms[0], t);
      case System =>
        r := NormalizePlainMessage(p, ms[0], t);
      case User =>
        r := NormalizePlainMessage(p, ms[0], t);
      case Assistant =>
        r := NormalizeAssistantTurn(p, ms, t);
    }
  }

  /** The loop over the messages; `rest` is what has not been consumed yet. */
  method NormalizeAll(p: Policy, messages: seq<Message>, t: Tally) returns (r: Result<Pass, Failure>)
    ensures r == NormalizeFrom(p, messages, t)
  {
    var output: seq<Message>, idMappings: seq<IdMapping>, tally := [], [], t;
    var rest := messages;
    ghost var whole := NormalizeFrom(p, messages, t);
    AfterNothing(whole);
    while rest != []
      invariant whole == After(output, idMappings, NormalizeFrom(p, rest, tally))
      decreases |rest|
    {
      var head := NormalizeNext(p, rest, tally);
      AfterHead(p, rest, tally, output, idMappings);
      if head.Err? {
        return Err(head.error);
      }
      output := output + head.value.output;
      idMappings := idMappings + head.value.mappings;
      tally := head.value.tally;
      rest := rest[head.value.used..];
    }
    AfterAll(output, idMappings, p, tally);
    return Ok(Pass(output, idMappings, tally));
  }

  /** The pass over a history; it is the specification's `Normalize`. */
  method NormalizeHistory(p: Policy, messages: seq<Message>) returns (r: Result<NormalizedContext, Failure>)
    ensures r == Normalize(p, messages)
  {
    if |messages| > p.maxMessages {
      return Err(TooManyMessages);
    }
    var pass := NormalizeAll(p, messages, START);
    if pass.Err? {
      return Err(pass.error);
    }
    if |pass.value.output| > p.maxMessages {
      return Err(TooManyMessages);
    }
    return Ok(NormalizedContext(pass.value.output, pass.value.mappings, pass.value.tally.diagnostics));
  }

  /** The result of a pass that has already produced `output` and `mappings`. */
  function After(output: seq<Message>, mappings: seq<IdMapping>, rest: Result<Pass, Failure>): Result<Pass, Failure> {
    if rest.Err? then rest
    else Ok(Pass(output + rest.value.output, mappings + rest.value.mappings, rest.value.tally))
  }

  lemma AfterNothing(rest: Result<Pass, Failure>)
    ensures After([], [], rest) == rest
  {
    if rest.Ok? {
      EmptySides(rest.value.output);
      EmptySides(rest.value.mappings);
    }
  }

  lemma AfterAll(output: seq<Message>, mappings: seq<IdMapping>, p: Policy, t: Tally)
    ensures After(output, mappings, NormalizeFrom(p, [], t)) == Ok(Pass(output, mappings, t))
  {
    EmptySides(output);
    EmptySides(mappings);
  }

  lemma AfterHead(p: Policy, ms: seq<Message>, t: Tally, output: seq<Message>, mappings: seq<IdMapping>)
    requires ms != []
    ensures After(output, mappings, NormalizeFrom(p, ms, t)) ==
            match NormalizeHead(p, ms, t)
            case Err(e) => Err(e)
            case Ok(h) => After(output + h.output, mappings + h.mappings, NormalizeFrom(p, ms[h.used..], h.tally))
  {
    var head := NormalizeHead(p, ms, t);
    if head.Ok? {
      var h := head.value;
      var rest := NormalizeFrom(p, ms[h.used..], h.tally);
      if rest.Ok? {
        Regroup(output, h.output, rest.value.output);
        Regroup(mappings, h.mappings, rest.value.mappings);
      }
    }
  }
}
