/** One normalization pass as a function: plain messages, assistant turns and their tool results. */
module NormalizeSpec {
  import opened Prelude
  import opened Domain
  import opened History

  // ---------------------------------------------------------------- an assistant message

  datatype Turn = Turn(
    parts: seq<ContentPart>, mappings: seq<IdMapping>, occupied: set<Bytes>, seenTool: bool, tally: Tally)

  function Sanitized(t: Tally): Tally {
    t.(diagnostics := t.diagnostics.(sanitizedIds := t.diagnostics.sanitizedIds + 1))
  }

  /** A tool call takes a free id; other content may not follow a tool call. */
  function TurnStep(p: Policy, part: ContentPart, turn: Turn): Result<Turn, Failure> {
    if part.ToolCallPart? then
      var id := NormalizeId(p.toolCallId, part.call.id, turn.occupied);
      if id.Err? then Err(id.error)
      else
        var renamed := id.value != part.call.id;
        Ok(Turn(turn.parts + [ToolCallPart(part.call.(id := id.value))],
                turn.mappings + (if renamed then [IdMapping(part.call.id, id.value)] else []),
                turn.occupied + {id.value}, true,
                if renamed then Sanitized(turn.tally) else turn.tally))
    else if turn.seenTool then Err(InvalidMessageOrder)
    else
      var f := FilterPart(p, part, true, Filtered(turn.parts, turn.tally));
      if f.Err? then Err(f.error) else Ok(turn.(parts := f.value.parts, tally := f.value.tally))
  }

  function TurnParts(p: Policy, parts: seq<ContentPart>, t: Tally): Result<Turn, Failure> {
    if parts == [] then Ok(Turn([], [], {}, false, t))
    else
      var before := TurnParts(p, parts[..|parts| - 1], t);
      if before.Err? then before else TurnStep(p, parts[|parts| - 1], before.value)
  }

  // ---------------------------------------------------------------- tool results

  /** Position of the mapping for `original`, or the number of mappings. */
  function FindOriginal(mappings: seq<IdMapping>, original: Bytes): (i: nat)
    ensures i <= |mappings|
    ensures i < |mappings| ==> mappings[i].original == original
    ensures forall j :: 0 <= j < i ==> mappings[j].original != original
  {
    if mappings == [] || mappings[0].original == original then 0 else 1 + FindOriginal(mappings[1..], original)
  }

  /** The id a call of this turn carries after normalization. */
  function Lookup(mappings: seq<IdMapping>, id: Bytes): Bytes {
    var i := FindOriginal(mappings, id);
    if i < |mappings| then mappings[i].normalized else id
  }

  /** The ids that results are expected for. */
  function Expected(mappings: seq<IdMapping>, calls: seq<ToolCall>): Result<set<Bytes>, Failure> {
    if calls == [] then Ok({})
    else
      var before := Expected(mappings, calls[..|calls| - 1]);
      var id := Lookup(mappings, calls[|calls| - 1].id);
      if before.Err? then before
      else if id in before.value then Err(DuplicateToolCall)
      else Ok(before.value + {id})
  }

  /** A result may carry a call's original id or an id that is already normalized. */
  function ResolveId(mappings: seq<IdMapping>, calls: seq<ToolCall>, id: Bytes): Result<Bytes, Failure> {
    var i := FindOriginal(mappings, id);
    if i < |mappings| then Ok(mappings[i].normalized)
    else if (exists m :: m in mappings && m.normalized == id) || id in IdsOf(calls) then Ok(id)
    else Err(UnknownToolCall)
  }

  /** Exactly one non-empty text part. */
  predicate ValidAnswer(content: seq<ContentPart>) {
    |content| == 1 && content[0].Text? && content[0].text != []
  }

  function AnswerText(p: Policy, content: seq<ContentPart>, t: Tally): Result<Tally, Failure> {
    if content == [] then Ok(t)
    else
      var before := AnswerText(p, content[..|content| - 1], t);
      if before.Err? then before
      else
        match content[|content| - 1]
        case Text(text) => AddTextBytes(p, before.value, |text|)
        case _ => Err(UnsupportedContent)
  }

  function RemapResult(p: Policy, r: ToolResult, id: Bytes, t: Tally): Result<(ToolResult, Tally), Failure> {
    var t' := AnswerText(p, r.content, t);
    if t'.Err? then Err(t'.error)
    else if !ValidAnswer(r.content) then Err(UnsupportedContent)
    else Ok((r.(callId := id), t'.value))
  }

  datatype Answers = Answers(pending: set<Bytes>, results: seq<ToolResult>, tally: Tally)

  /** What a turn's results are checked against. */
  datatype Asked = Asked(mappings: seq<IdMapping>, calls: seq<ToolCall>, expected: set<Bytes>)

  function AnswerStep(p: Policy, asked: Asked, m: Message, a: Answers): Result<Answers, Failure> {
    if !m.payload.Answer? then Err(InvalidMessageOrder)
    else
      var id := ResolveId(asked.mappings, asked.calls, m.payload.result.callId);
      if id.Err? then Err(id.error)
      else if id.value !in a.pending then
        if id.value in asked.expected || (exists r :: r in a.results && r.callId == id.value)
        then Err(DuplicateToolResult)
        else Err(UnknownToolCall)
      else
        var r := RemapResult(p, m.payload.result, id.value, a.tally);
        if r.Err? then Err(r.error)
        else Ok(Answers(a.pending - {id.value}, a.results + [r.value.0], r.value.1))
  }

  function AnswerAll(p: Policy, asked: Asked, messages: seq<Message>, t: Tally): Result<Answers, Failure> {
    if messages == [] then Ok(Answers(asked.expected, [], t))
    else
      var before := AnswerAll(p, asked, messages[..|messages| - 1], t);
      if before.Err? then before else AnswerStep(p, asked, messages[|messages| - 1], before.value)
  }

  // ---------------------------------------------------------------- the pass

  /** What one message, or one assistant message with its results, turns into; `used` messages are consumed. */
  datatype Head = Head(output: seq<Message>, mappings: seq<IdMapping>, tally: Tally, used: nat)

  function Removed(t: Tally): Tally {
    t.(diagnostics := t.diagnostics.(removedAssistants := t.diagnostics.removedAssistants + 1))
  }

  function LeadingTools(ms: seq<Message>): (k: nat)
    ensures k <= |ms|
    ensures forall i :: 0 <= i < k ==> ms[i].role.Tool?
    ensures k < |ms| ==> !ms[k].role.Tool?
  {
    if ms == [] || !ms[0].role.Tool? then 0 else 1 + LeadingTools(ms[1..])
  }

  function AnswerMessages(results: seq<ToolResult>): (ms: seq<Message>)
    ensures |ms| == |results|
    ensures forall i :: 0 <= i < |results| ==> ms[i] == Message(Tool, Answer(results[i]))
  {
    seq(|results|, i requires 0 <= i < |results| => Message(Tool, Answer(results[i])))
  }

  function PlainHead(p: Policy, m: Message, t: Tally): Result<Head, Failure> {
    if m.role.Developer? && !p.developerRole.Supported? then Err(UnsupportedContent) else PlainMessage(p, m, t)
  }

  /** A message outside turns, filtered part by part and dropped when nothing is left. */
  function PlainMessage(p: Policy, m: Message, t: Tally): Result<Head, Failure> {
    if m.payload.Answer? then Err(InvalidMessageOrder)
    else
      var f := FilterParts(p, m.payload.parts, false, t);
      if f.Err? then Err(f.error)
      else Ok(Head(if f.value.parts == [] then [] else [Message(m.role, Content(f.value.parts))], [], f.value.tally, 1))
  }

  /** The results of a turn whose calls are `calls`. */
  function ToolHead(p: Policy, turn: Turn, calls: seq<ToolCall>, rest: seq<Message>): Result<Head, Failure> {
    if turn.parts == [] then Err(InvalidMessageOrder)
    else
      var expected := Expected(turn.mappings, calls);
      if expected.Err? then Err(expected.error)
      else
        var k := LeadingTools(rest);
        var answers := AnswerAll(p, Asked(turn.mappings, calls, expected.value), rest[..k], turn.tally);
        if answers.Err? then Err(answers.error)
        else if answers.value.pending != {} then Err(MissingToolResult)
        else
          Ok(Head([Message(Assistant, Content(turn.parts))] + AnswerMessages(answers.value.results),
                  turn.mappings, answers.value.tally, 1 + k))
  }

  function TurnHead(
    p: Policy, turn: Result<Turn, Failure>, calls: seq<ToolCall>, rest: seq<Message>): Result<Head, Failure>
  {
    if turn.Err? then Err(turn.error)
    else if calls != [] then ToolHead(p, turn.value, calls, rest)
    else if turn.value.parts == [] then Ok(Head([], turn.value.mappings, Removed(turn.value.tally), 1))
    else Ok(Head([Message(Assistant, Content(turn.value.parts))], turn.value.mappings, turn.value.tally, 1))
  }

  function AssistantHead(p: Policy, ms: seq<Message>, t: Tally): Result<Head, Failure>
    requires ms != []
  {
    var parts := ms[0].Parts();
    var calls := CallsOf(parts);
    if !Distinct(IdsOf(calls)) then Err(DuplicateToolCall)
    else if parts == [] then Ok(Head([], [], Removed(t), 1))
    else TurnHead(p, TurnParts(p, parts, t), calls, ms[1..])
  }

  function NormalizeHead(p: Policy, ms: seq<Message>, t: Tally): (r: Result<Head, Failure>)
    requires ms != []
    ensures r.Ok? ==> 1 <= r.value.used <= |ms|
  {
    match ms[0].role
    case Tool => Err(ResultBeforeCall)
    case Assistant => AssistantHead(p, ms, t)
    case _ => PlainHead(p, ms[0], t)
  }

  datatype Pass = Pass(output: seq<Message>, mappings: seq<IdMapping>, tally: Tally)

  function NormalizeFrom(p: Policy, ms: seq<Message>, t: Tally): Result<Pass, Failure>
    decreases |ms|
  {
    if ms == [] then Ok(Pass([], [], t))
    else
      var h := NormalizeHead(p, ms, t);
      if h.Err? then Err(h.error)
      else
        var rest := NormalizeFrom(p, ms[h.value.used..], h.value.tally);
        if rest.Err? then rest
        else Ok(Pass(h.value.output + rest.value.output, h.value.mappings + rest.value.mappings, rest.value.tally))
  }

  const START := Tally(0, QUIET)

  function Normalize(p: Policy, ms: seq<Message>): Result<NormalizedContext, Failure> {
    if |ms| > p.maxMessages then Err(TooManyMessages)
    else
      var pass := NormalizeFrom(p, ms, START);
      if pass.Err? then Err(pass.error)
      else if |pass.value.output| > p.maxMessages then Err(TooManyMessages)
      else Ok(NormalizedContext(pass.value.output, pass.value.mappings, pass.value.tally.diagnostics))
  }
}
