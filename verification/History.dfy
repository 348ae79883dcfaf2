/** Conversation history as it is replayed to a provider, and the rules for normalizing it. */
module History {
  import opened Prelude
  import opened Domain

  datatype Role = Developer | System | User | Assistant | Tool

  datatype ToolResult = ToolResult(
    callId: Bytes,
    toolName: Bytes,
    content: seq<ContentPart>,
    isError: bool,
    generation: Option<Bytes>)

  datatype Payload = Content(parts: seq<ContentPart>) | Answer(result: ToolResult)

  datatype Message = Message(role: Role, payload: Payload) {
    /** Tool results have no content parts of their own. */
    function Parts(): seq<ContentPart> { if payload.Content? then payload.parts else [] }
  }

  datatype Capability = Supported | Unsupported | UnknownCapability

  datatype UnsupportedPolicy = Reject | DropWithDiagnostic

  datatype ThinkingPolicy = SameSourceOnly | DropAll

  /** `OpenAi` carries the hash that disambiguates rewritten ids; any function will do. */
  datatype IdPolicy = Preserve | OpenAi(hash: Bytes -> nat)

  datatype Policy = Policy(
    developerRole: Capability,
    visionInput: Capability,
    unsupportedContent: UnsupportedPolicy,
    thinkingReplay: ThinkingPolicy,
    toolCallId: IdPolicy,
    maxMessages: nat,
    maxTextBytes: nat)

  datatype Failure =
    | TooManyMessages | ResultBeforeCall | UnsupportedContent | InvalidMessageOrder
    | DuplicateToolCall | DuplicateToolResult | UnknownToolCall | MissingToolResult
    | ToolCallIdCollision | TextTooLarge

  /** How often each lossy transformation happened. */
  datatype Diagnostics = Diagnostics(
    droppedThinking: nat, sanitizedIds: nat, removedAssistants: nat, droppedImages: nat)

  const QUIET := Diagnostics(0, 0, 0, 0)

  datatype IdMapping = IdMapping(original: Bytes, normalized: Bytes)

  datatype NormalizedContext = NormalizedContext(
    messages: seq<Message>, idMappings: seq<IdMapping>, diagnostics: Diagnostics)

  /** What a pass has counted so far. */
  datatype Tally = Tally(text: nat, diagnostics: Diagnostics)

  // ---------------------------------------------------------------- content parts

  datatype Verdict = Keep | Drop(thinking: bool, image: bool) | Refuse(failure: Failure)

  /** What becomes of a content part; tool calls are treated apart on assistant turns. */
  function VerdictOn(p: Policy, part: ContentPart, assistant: bool): Verdict {
    match part
    case Text(_) => Keep
    case Image(_) =>
      if p.visionInput.Supported? then Keep
      else if p.unsupportedContent.Reject? then Refuse(UnsupportedContent)
      else Drop(false, true)
    case Thinking(_, sealed) => if p.thinkingReplay.DropAll? then Drop(sealed.Some?, false) else Keep
    case Refusal(_) => if assistant then Keep else Refuse(UnsupportedContent)
    case ToolCallPart(_) => Refuse(InvalidMessageOrder)
  }

  /** Text bytes a kept part is charged. */
  function TextCost(part: ContentPart): nat {
    match part
    case Text(text) => |text|
    case Thinking(text, _) => |text|
    case Refusal(text) => |text|
    case _ => 0
  }

  function AddTextBytes(p: Policy, t: Tally, added: nat): Result<Tally, Failure> {
    if t.text + added > p.maxTextBytes then Err(TextTooLarge) else Ok(t.(text := t.text + added))
  }

  function Counted(t: Tally, v: Verdict): Tally
    requires v.Drop?
  {
    var d := t.diagnostics;
    t.(diagnostics := d.(droppedThinking := d.droppedThinking + (if v.thinking then 1 else 0),
                         droppedImages := d.droppedImages + (if v.image then 1 else 0)))
  }

  /** The parts that remain, and the tally, after looking at one part. */
  datatype Filtered = Filtered(parts: seq<ContentPart>, tally: Tally)

  function FilterPart(p: Policy, part: ContentPart, assistant: bool, f: Filtered): Result<Filtered, Failure> {
    match VerdictOn(p, part, assistant)
    case Refuse(e) => Err(e)
    case Drop(a, b) => Ok(f.(tally := Counted(f.tally, Drop(a, b))))
    case Keep =>
      var t := AddTextBytes(p, f.tally, TextCost(part));
      if t.Err? then Err(t.error) else Ok(Filtered(f.parts + [part], t.value))
  }

  function FilterParts(p: Policy, parts: seq<ContentPart>, assistant: bool, t: Tally): Result<Filtered, Failure> {
    if parts == [] then Ok(Filtered([], t))
    else
      var before := FilterParts(p, parts[..|parts| - 1], assistant, t);
      if before.Err? then before else FilterPart(p, parts[|parts| - 1], assistant, before.value)
  }

  // ---------------------------------------------------------------- tool call ids

  predicate IdChar(b: byte) { 48 <= b <= 57 || 65 <= b <= 90 || 97 <= b <= 122 || b == 95 || b == 45 }

  /** The historical id rule of the OpenAI wire format. */
  predicate OpenAiId(id: Bytes) { 1 <= |id| <= 40 && forall i :: 0 <= i < |id| ==> IdChar(id[i]) }

  function OnlyIdChars(id: Bytes): (r: Bytes)
    ensures |r| <= |id|
    ensures forall i :: 0 <= i < |r| ==> IdChar(r[i])
  {
    if id == [] then [] else (if IdChar(id[0]) then [id[0]] else []) + OnlyIdChars(id[1..])
  }

  const CALL: Bytes := [99, 97, 108, 108]

  function HexDigit(n: nat): byte
    requires n < 16
  {
    if n < 10 then 48 + n else 87 + n
  }

  /** The low `width` hexadecimal digits of `n`, lower case. */
  function Hex(n: nat, width: nat): (r: Bytes)
    ensures |r| == width
    ensures forall i :: 0 <= i < |r| ==> IdChar(r[i])
  {
    if width == 0 then [] else Hex(n / 16, width - 1) + [HexDigit(n % 16)]
  }

  /** A filtered id if it is usable and free, otherwise a prefix of it and twelve hash digits. */
  function Sanitize(hash: Bytes -> nat, id: Bytes, occupied: set<Bytes>): Result<Bytes, Failure> {
    var filtered := OnlyIdChars(id);
    if 1 <= |filtered| <= 40 && filtered !in occupied then Ok(filtered)
    else
      var prefix := if filtered == [] then CALL else filtered[..Min(27, |filtered|)];
      var candidate := prefix + [95] + Hex(hash(id), 12);
      if candidate in occupied then Err(ToolCallIdCollision) else Ok(candidate)
  }

  function NormalizeId(policy: IdPolicy, id: Bytes, occupied: set<Bytes>): Result<Bytes, Failure> {
    match policy
    case Preserve => if id in occupied then Err(DuplicateToolCall) else Ok(id)
    case OpenAi(hash) => Sanitize(hash, id, occupied)
  }

  function CallsOf(parts: seq<ContentPart>): seq<ToolCall> {
    if parts == [] then []
    else
      var last := parts[|parts| - 1];
      CallsOf(parts[..|parts| - 1]) + if last.ToolCallPart? then [last.call] else []
  }

  predicate Distinct<T(==)>(s: seq<T>) { forall i, j :: 0 <= i < j < |s| ==> s[i] != s[j] }

  function IdsOf(calls: seq<ToolCall>): (ids: seq<Bytes>)
    ensures |ids| == |calls| && forall i :: 0 <= i < |calls| ==> ids[i] == calls[i].id
  {
    seq(|calls|, i requires 0 <= i < |calls| => calls[i].id)
  }

  function ToSet<T>(s: seq<T>): set<T> { set x | x in s }
}
