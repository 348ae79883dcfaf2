/**
 The one-shot meaning of an SSE byte string: cut it into lines, group the lines between blank
 lines into blocks, and read every block as one event. Nothing here is incremental; chunks and
 polls do not exist.
 */
module SseReference {
  import opened Prelude
  import opened Errors
  import opened Sse

  predicate IsBreak(b: byte) { b == CR || b == LF }

  predicate BreakFree(s: Bytes) { forall i :: 0 <= i < |s| ==> !IsBreak(s[i]) }

  /** Position of the first CR or LF, or the length. */
  function FirstBreak(s: Bytes): (i: nat)
    ensures i <= |s|
    ensures i < |s| ==> IsBreak(s[i])
    ensures BreakFree(s[..i])
  {
    if s == [] || IsBreak(s[0]) then 0
    else
      assert s[..1 + FirstBreak(s[1..])] == [s[0]] + s[1..][..FirstBreak(s[1..])];
      1 + FirstBreak(s[1..])
  }

  /** What follows the break at the front of `s`; CR LF is one break. */
  function AfterBreak(s: Bytes): (r: Bytes)
    requires s != []
    ensures |r| < |s|
  {
    if s[0] == CR && |s| > 1 && s[1] == LF then s[2..] else s[1..]
  }

  /** The terminated lines of `s` and the unterminated remainder. */
  datatype Split = Split(lines: seq<Bytes>, tail: Bytes)

  function SplitLines(s: Bytes): Split
    decreases |s|
  {
    var i := FirstBreak(s);
    if i == |s| then Split([], s)
    else
      var rest := SplitLines(AfterBreak(s[i..]));
      Split([s[..i]] + rest.lines, rest.tail)
  }

  // ---------------------------------------------------------------- a block of fields

  function DataOf(fields: seq<Field>): seq<Bytes> {
    if fields == [] then []
    else
      var last := fields[|fields| - 1];
      DataOf(fields[..|fields| - 1]) + if last.Data? then [last.value] else []
  }

  /** The last `event` field wins. */
  function TypeOf(fields: seq<Field>): Option<Bytes> {
    if fields == [] then None
    else
      var last := fields[|fields| - 1];
      if last.EventType? then Some(last.value) else TypeOf(fields[..|fields| - 1])
  }

  /** The last usable `retry` field wins. */
  function RetryOf(fields: seq<Field>): Option<nat> {
    if fields == [] then None
    else
      var last := fields[|fields| - 1];
      if last.Retry? then Some(last.millis) else RetryOf(fields[..|fields| - 1])
  }

  /** The last usable `id` field wins; without one the id of the earlier events stays in force. */
  function IdOf(fields: seq<Field>, carried: Option<Bytes>): Option<Bytes> {
    if fields == [] then carried
    else
      var last := fields[|fields| - 1];
      if last.Id? then Some(last.value) else IdOf(fields[..|fields| - 1], carried)
  }

  /** Fields that count against the limit: all but comments. */
  function FieldCount(fields: seq<Field>): nat {
    if fields == [] then 0
    else FieldCount(fields[..|fields| - 1]) + if fields[|fields| - 1].Comment? then 0 else 1
  }

  /** A block is an event when it has a data field. */
  function EventItems(fields: seq<Field>, carried: Option<Bytes>): seq<Item> {
    if DataOf(fields) == [] then []
    else [Ok(SseEvent(Join(DataOf(fields), LF), TypeOf(fields), IdOf(fields, carried), RetryOf(fields)))]
  }

  // ---------------------------------------------------------------- limits

  /**
   The size limit that the next line breaks first, if any: `used` bytes of the event precede
   it, `length` is its length. A line break is charged as one byte, however it is spelled, and
   the event limit is consulted before the line limit.
   */
  function SizeError(cfg: Config, used: nat, length: nat, terminated: bool, line: nat): Option<SseError> {
    var room := cfg.maxEventBytes - used;
    var total := length + if terminated then 1 else 0;
    if total > room && (room <= cfg.maxLineBytes || length <= cfg.maxLineBytes) then
      Some(LimitExceeded(EventBytes, cfg.maxEventBytes, cfg.maxEventBytes + 1, line))
    else if length > cfg.maxLineBytes then
      Some(LimitExceeded(LineBytes, cfg.maxLineBytes, cfg.maxLineBytes + 1, line))
    else None
  }

  /** What is wrong with a complete non-empty line after `fields`, if anything. */
  function ContentError(cfg: Config, fields: seq<Field>, text: Bytes, line: nat): Option<SseError> {
    ContentDefect(cfg, FieldCount(fields), ValidUtf8(text), FieldOf(text), line)
  }

  function ContentDefect(cfg: Config, before: nat, utf8: bool, f: Field, line: nat): Option<SseError> {
    if !utf8 then Some(InvalidUtf8(line))
    else if !f.Comment? && cfg.maxFields.Some? && before + 1 > cfg.maxFields.value then
      Some(LimitExceeded(Fields, cfg.maxFields.value, before + 1, line))
    else None
  }

  // ---------------------------------------------------------------- the parse

  /** How the byte stream ends. */
  datatype Ending = Eof | Broken(error: LlmError) | Oversized(length: nat)

  /** Where a parse stands: the fields and bytes since the last blank line, the id in force, the lines so far. */
  datatype Block = Block(fields: seq<Field>, used: nat, id: Option<Bytes>, lines: nat)

  const EMPTY := Block([], 0, None, 0)

  function AddLine(b: Block, text: Bytes): Block {
    Block(b.fields + [FieldOf(text)], b.used + |text| + 1, b.id, SatAdd(b.lines, 1))
  }

  function CloseBlock(b: Block): Block {
    Block([], 0, IdOf(b.fields, b.id), SatAdd(b.lines, 1))
  }

  function ParseTail(cfg: Config, b: Block, tail: Bytes, ending: Ending): seq<Item> {
    var line := SatAdd(b.lines, 1);
    match SizeError(cfg, b.used, |tail|, false, line)
    case Some(e) => [Err(e)]
    case None =>
      match ending
      case Broken(e) => [Err(Upstream(e))]
      case Oversized(length) => [Err(LimitExceeded(ChunkBytes, cfg.maxChunkBytes, length, line))]
      case Eof =>
        if tail == [] then EventItems(b.fields, b.id)
        else
          match ContentError(cfg, b.fields, tail, line)
          case Some(e) => [Err(e)]
          case None => EventItems(b.fields + [FieldOf(tail)], b.id)
  }

  /** Items of `lines` and the unterminated `tail`, read after `b`. */
  function ParseLines(cfg: Config, b: Block, lines: seq<Bytes>, tail: Bytes, ending: Ending): seq<Item>
    decreases |lines|
  {
    if lines == [] then ParseTail(cfg, b, tail, ending)
    else
      var line := SatAdd(b.lines, 1);
      match SizeError(cfg, b.used, |lines[0]|, true, line)
      case Some(e) => [Err(e)]
      case None =>
        if lines[0] == [] then
          EventItems(b.fields, b.id) + ParseLines(cfg, CloseBlock(b), lines[1..], tail, ending)
        else
          match ContentError(cfg, b.fields, lines[0], line)
          case Some(e) => [Err(e)]
          case None => ParseLines(cfg, AddLine(b, lines[0]), lines[1..], tail, ending)
  }

  /** Every item of a byte string that ends as `ending` says. */
  function Parse(cfg: Config, bytes: Bytes, ending: Ending): seq<Item> {
    var s := SplitLines(bytes);
    ParseLines(cfg, EMPTY, s.lines, s.tail, ending)
  }

  // ---------------------------------------------------------------- limits and budgets

  /** The same size limits; how much work a poll may do can differ. */
  predicate SameLimits(a: Config, b: Config) {
    && a.maxEventBytes == b.maxEventBytes && a.maxLineBytes == b.maxLineBytes
    && a.maxFields == b.maxFields && a.maxChunkBytes == b.maxChunkBytes
  }

  lemma TailIgnoresBudgets(x: Config, y: Config, b: Block, tail: Bytes, ending: Ending)
    requires SameLimits(x, y)
    ensures ParseTail(x, b, tail, ending) == ParseTail(y, b, tail, ending)
  {
  }

  lemma {:induction false} LinesIgnoreBudgets(
    x: Config, y: Config, b: Block, lines: seq<Bytes>, tail: Bytes, ending: Ending)
    requires SameLimits(x, y)
    ensures ParseLines(x, b, lines, tail, ending) == ParseLines(y, b, lines, tail, ending)
    decreases |lines|
  {
    if lines == [] {
      TailIgnoresBudgets(x, y, b, tail, ending);
    } else {
      var line := SatAdd(b.lines, 1);
      assert SizeError(x, b.used, |lines[0]|, true, line) == SizeError(y, b.used, |lines[0]|, true, line);
      assert ContentError(x, b.fields, lines[0], line) == ContentError(y, b.fields, lines[0], line);
      var next := if lines[0] == [] then CloseBlock(b) else AddLine(b, lines[0]);
      LinesIgnoreBudgets(x, y, next, lines[1..], tail, ending);
    }
  }

  /** A parse depends on the size limits, not on the poll budgets. */
  lemma ParseIgnoresBudgets(x: Config, y: Config, bytes: Bytes, ending: Ending)
    requires SameLimits(x, y)
    ensures Parse(x, bytes, ending) == Parse(y, bytes, ending)
  {
    var s := SplitLines(bytes);
    LinesIgnoreBudgets(x, y, EMPTY, s.lines, s.tail, ending);
  }
}
