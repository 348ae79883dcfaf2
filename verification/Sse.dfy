/** Server-Sent Events vocabulary: limits, events, failures, and the meaning of one line. */
module Sse {
  import opened Prelude
  import opened Errors

  /** Resource limits of one decoder; every limit but `maxFields` is positive by construction. */
  datatype SseConfig = SseConfig(
    maxEventBytes: nat,
    maxLineBytes: nat,
    maxFields: Option<nat>,
    maxChunkBytes: nat,
    maxBytesPerPoll: nat,
    maxChunksPerPoll: nat,
    maxEventsPerPoll: nat)
  {
    predicate Valid() {
      && maxEventBytes > 0 && maxLineBytes > 0 && maxChunkBytes > 0
      && maxBytesPerPoll > 0 && maxChunksPerPoll > 0 && maxEventsPerPoll > 0
    }
  }

  type Config = c: SseConfig | c.Valid()
    witness SseConfig(1024 * 1024, 64 * 1024, Some(128), 256 * 1024, 64 * 1024, 16, 32)

  datatype SseEvent = SseEvent(data: Bytes, eventType: Option<Bytes>, id: Option<Bytes>, retryMillis: Option<nat>)

  datatype SseLimit = ChunkBytes | EventBytes | LineBytes | Fields

  datatype SseError =
    | Upstream(error: LlmError)
    | InvalidUtf8(line: nat)
    | LimitExceeded(resource: SseLimit, limit: nat, observed: nat, line: nat)
  {
    /** Framing failures join the public taxonomy; upstream failures keep their identity. */
    function IntoLlmError(): LlmError {
      match this
      case Upstream(e) => e
      case _ => Protocol(false)
    }
  }

  type Item = Result<SseEvent, SseError>

  // ---------------------------------------------------------------- UTF-8

  predicate Continuation(b: byte) { 0x80 <= b <= 0xBF }

  /** Length of the well-formed UTF-8 sequence `s` starts with, or 0 (table 3-7 of the Unicode Standard). */
  function Utf8Lead(s: Bytes): (n: nat)
    ensures n <= 4 && n <= |s|
    ensures n > 1 ==> forall j :: 0 <= j < n ==> s[j] >= 0x80
  {
    if s == [] then 0
    else if s[0] < 0x80 then 1
    else if 0xC2 <= s[0] <= 0xDF && |s| >= 2 && Continuation(s[1]) then 2
    else if |s| >= 3 && Continuation(s[2])
         && ((s[0] == 0xE0 && 0xA0 <= s[1] <= 0xBF)
             || ((0xE1 <= s[0] <= 0xEC || 0xEE <= s[0] <= 0xEF) && Continuation(s[1]))
             || (s[0] == 0xED && 0x80 <= s[1] <= 0x9F)) then 3
    else if |s| >= 4 && Continuation(s[2]) && Continuation(s[3])
         && ((s[0] == 0xF0 && 0x90 <= s[1] <= 0xBF)
             || (0xF1 <= s[0] <= 0xF3 && Continuation(s[1]))
             || (s[0] == 0xF4 && 0x80 <= s[1] <= 0x8F)) then 4
    else 0
  }

  predicate ValidUtf8(s: Bytes)
    decreases |s|
  {
    s == [] || (Utf8Lead(s) > 0 && ValidUtf8(s[Utf8Lead(s)..]))
  }

  // ---------------------------------------------------------------- one line

  /** First position of `b`, or the length when it does not occur. */
  function IndexOf(s: Bytes, b: byte): (i: nat)
    ensures i <= |s|
    ensures i < |s| ==> s[i] == b
    ensures forall j :: 0 <= j < i ==> s[j] != b
  {
    if s == [] || s[0] == b then 0 else 1 + IndexOf(s[1..], b)
  }

  /** Splits at the first colon and drops one leading space of the value. */
  function SplitField(line: Bytes): (Bytes, Bytes) {
    var i := IndexOf(line, COLON);
    if i == |line| then (line, [])
    else
      var value := line[i + 1..];
      (line[..i], if value != [] && value[0] == SPACE then value[1..] else value)
  }

  const DATA: Bytes := [100, 97, 116, 97]
  const EVENT: Bytes := [101, 118, 101, 110, 116]
  const ID: Bytes := [105, 100]
  const RETRY: Bytes := [114, 101, 116, 114, 121]

  predicate AllDigits(s: Bytes) { forall i :: 0 <= i < |s| ==> 48 <= s[i] <= 57 }

  function DecimalValue(s: Bytes): nat
    requires AllDigits(s)
  {
    if s == [] then 0 else 10 * DecimalValue(s[..|s| - 1]) + (s[|s| - 1] - 48)
  }

  /** A non-empty run of ASCII digits that fits 64 bits. */
  function ParseRetry(s: Bytes): Option<nat> {
    if s != [] && AllDigits(s) && DecimalValue(s) <= U64_MAX then Some(DecimalValue(s)) else None
  }

  /** What a complete non-empty line contributes to the event being assembled. */
  datatype Field =
    | Comment
    | Data(value: Bytes)
    | EventType(value: Bytes)
    | Id(value: Bytes)
    | Retry(millis: nat)
    | Ignored

  function FieldOf(line: Bytes): Field {
    if line != [] && line[0] == COLON then Comment
    else
      var (name, value) := SplitField(line);
      if name == DATA then Data(value)
      else if name == EVENT then EventType(value)
      else if name == ID && NUL !in value then Id(value)
      else if name == RETRY && ParseRetry(value).Some? then Retry(ParseRetry(value).value)
      else Ignored
  }

  /** The pieces with `sep` between neighbours. */
  function Join(pieces: seq<Bytes>, sep: byte): Bytes {
    if pieces == [] then []
    else if |pieces| == 1 then pieces[0]
    else Join(pieces[..|pieces| - 1], sep) + [sep] + pieces[|pieces| - 1]
  }
}
