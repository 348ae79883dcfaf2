/**
 The byte-at-a-time decoder as a transition function, and the proof that running it over a
 byte string yields exactly the one-shot parse.
 */
module SseMachine {
  import opened Prelude
  import opened Sse
  import opened SseReference

  /** The decoder's parsing fields. */
  datatype Core = Core(
    line: Bytes,
    dataLines: seq<Bytes>,
    eventType: Option<Bytes>,
    lastEventId: Option<Bytes>,
    retryMillis: Option<nat>,
    hasData: bool,
    sawCr: bool,
    eventBytes: nat,
    fieldCount: nat,
    lineNumber: nat)

  const INIT := Core([], [], None, None, None, false, false, 0, 0, 0)

  datatype Outcome = Running(core: Core) | Emitted(event: SseEvent, core: Core) | Failed(error: SseError)

  function Dispatch(c: Core): Outcome {
    var cleared := c.(dataLines := [], eventType := None, retryMillis := None, hasData := false, eventBytes := 0,
      fieldCount := 0);
    if c.hasData then Emitted(SseEvent(Join(c.dataLines, LF), c.eventType, c.lastEventId, c.retryMillis), cleared)
    else Running(cleared)
  }

  function ApplyField(c: Core, f: Field): Core {
    match f
    case Data(v) => c.(hasData := true, dataLines := c.dataLines + [v])
    case EventType(v) => c.(eventType := Some(v))
    case Id(v) => c.(lastEventId := Some(v))
    case Retry(m) => c.(retryMillis := Some(m))
    case _ => c
  }

  function FinishLine(cfg: Config, c: Core): Outcome {
    var taken := c.(line := [], lineNumber := SatAdd(c.lineNumber, 1));
    if c.line == [] then Dispatch(taken) else FinishText(cfg, taken, ValidUtf8(c.line), FieldOf(c.line))
  }

  /** A complete non-empty line whose text is valid or not and reads as `f`. */
  function FinishText(cfg: Config, c: Core, utf8: bool, f: Field): Outcome {
    if !utf8 then Failed(InvalidUtf8(c.lineNumber))
    else if f.Comment? then Running(c)
    else if cfg.maxFields.Some? && c.fieldCount + 1 > cfg.maxFields.value then
      Failed(LimitExceeded(Fields, cfg.maxFields.value, c.fieldCount + 1, c.lineNumber))
    else Running(ApplyField(c.(fieldCount := c.fieldCount + 1), f))
  }

  function WithCr(o: Outcome): Outcome {
    match o
    case Running(c) => Running(c.(sawCr := true))
    case Emitted(e, c) => Emitted(e, c.(sawCr := true))
    case Failed(_) => o
  }

  function Charge(c: Core): Core { c.(sawCr := false, eventBytes := c.eventBytes + 1) }

  /** One byte; `finished` is what finishing the current line would do, should the byte end it. */
  function StepWith(cfg: Config, c: Core, x: byte, finished: Outcome): Outcome {
    if c.sawCr && x == LF then Running(c.(sawCr := false))
    else if c.eventBytes + 1 > cfg.maxEventBytes then
      Failed(LimitExceeded(EventBytes, cfg.maxEventBytes, c.eventBytes + 1, SatAdd(c.lineNumber, 1)))
    else if x == CR then WithCr(finished)
    else if x == LF then finished
    else if |c.line| + 1 > cfg.maxLineBytes then
      Failed(LimitExceeded(LineBytes, cfg.maxLineBytes, |c.line| + 1, SatAdd(c.lineNumber, 1)))
    else Running(Charge(c).(line := c.line + [x]))
  }

  function Step(cfg: Config, c: Core, x: byte): Outcome {
    StepWith(cfg, c, x, FinishLine(cfg, Charge(c)))
  }

  /** The end of input: an unterminated line is finished, then an event with data is dispatched. */
  function FinishEof(cfg: Config, c: Core): seq<Item> {
    match (if c.line == [] then Running(c) else FinishLine(cfg, c))
    case Failed(e) => [Err(e)]
    case Emitted(e, _) => [Ok(e)]
    case Running(c') =>
      match Dispatch(c')
      case Emitted(e, _) => [Ok(e)]
      case _ => []
  }

  function FinishItems(cfg: Config, c: Core, ending: Ending): seq<Item> {
    match ending
    case Eof => FinishEof(cfg, c)
    case Broken(e) => [Err(Upstream(e))]
    case Oversized(length) => [Err(LimitExceeded(ChunkBytes, cfg.maxChunkBytes, length, SatAdd(c.lineNumber, 1)))]
  }

  /** Everything the machine delivers from `c` on. */
  function RunItems(cfg: Config, c: Core, bytes: Bytes, ending: Ending): seq<Item>
    decreases |bytes|
  {
    if bytes == [] then FinishItems(cfg, c, ending)
    else
      match Step(cfg, c, bytes[0])
      case Running(c') => RunItems(cfg, c', bytes[1..], ending)
      case Emitted(e, c') => [Ok(e)] + RunItems(cfg, c', bytes[1..], ending)
      case Failed(e) => [Err(e)]
  }

  // ---------------------------------------------------------------- refinement

  /** The event fields of `c` are those of the open block. */
  ghost predicate Holds(c: Core, b: Block) {
    && c.dataLines == DataOf(b.fields)
    && c.hasData == (DataOf(b.fields) != [])
    && c.eventType == TypeOf(b.fields)
    && c.lastEventId == IdOf(b.fields, b.id)
    && c.retryMillis == RetryOf(b.fields)
    && c.fieldCount == FieldCount(b.fields)
    && c.lineNumber == b.lines
  }

  /** The unfinished line of `c` is within the limits and charged to the event. */
  ghost predicate Charged(cfg: Config, c: Core, used: nat) {
    && c.eventBytes == used + |c.line|
    && BreakFree(c.line)
    && |c.line| <= cfg.maxLineBytes
    && c.eventBytes <= cfg.maxEventBytes
    && (c.sawCr ==> c.line == [])
  }

  lemma FieldsExtend(fields: seq<Field>, f: Field, id: Option<Bytes>)
    ensures var fs := fields + [f];
            && DataOf(fs) == DataOf(fields) + (if f.Data? then [f.value] else [])
            && TypeOf(fs) == (if f.EventType? then Some(f.value) else TypeOf(fields))
            && RetryOf(fs) == (if f.Retry? then Some(f.millis) else RetryOf(fields))
            && IdOf(fs, id) == (if f.Id? then Some(f.value) else IdOf(fields, id))
            && FieldCount(fs) == FieldCount(fields) + (if f.Comment? then 0 else 1)
  {
    TakeDrop(fields, [f]);
  }

  lemma FinishTextStep(cfg: Config, c: Core, b: Block, utf8: bool, f: Field)
    requires Holds(c, b)
    ensures var o := FinishText(cfg, c, utf8, f);
            match ContentDefect(cfg, FieldCount(b.fields), utf8, f, b.lines)
            case Some(e) => o == Failed(e)
            case None =>
              && o.Running?
              && o.core.sawCr == c.sawCr && o.core.line == c.line && o.core.eventBytes == c.eventBytes
              && Holds(o.core, b.(fields := b.fields + [f]))
  {
    FieldsExtend(b.fields, f, b.id);
    EmptySides(DataOf(b.fields));
  }

  /** Finishing a non-empty line either reports its defect or moves the line into the block. */
  lemma FinishLineStep(cfg: Config, c: Core, b: Block)
    requires Holds(c, b) && c.line != []
    ensures match ContentError(cfg, b.fields, c.line, SatAdd(b.lines, 1))
            case Some(e) => FinishLine(cfg, c) == Failed(e)
            case None =>
              && FinishLine(cfg, c).Running?
              && var c' := FinishLine(cfg, c).core;
              && c'.sawCr == c.sawCr && c'.line == [] && c'.eventBytes == c.eventBytes
              && Holds(c', AddLine(b, c.line))
  {
    FinishTextStep(cfg, c.(line := [], lineNumber := SatAdd(b.lines, 1)), b.(lines := SatAdd(b.lines, 1)),
      ValidUtf8(c.line), FieldOf(c.line));
  }

  lemma DispatchStep(c: Core, b: Block)
    requires Holds(c, b)
    ensures !Dispatch(c).Failed?
    ensures EventItems(b.fields, b.id) == (if Dispatch(c).Emitted? then [Ok(Dispatch(c).event)] else [])
    ensures var c' := Dispatch(c).core;
            && c'.line == c.line && c'.sawCr == c.sawCr && c'.eventBytes == 0
            && Holds(c', CloseBlock(b).(lines := b.lines))
  {
  }

  lemma {:induction false} FirstBreakAt(line: Bytes, rest: Bytes)
    requires BreakFree(line) && (rest == [] || IsBreak(rest[0]))
    ensures FirstBreak(line + rest) == |line|
  {
    if line == [] {
      EmptySides(rest);
    } else {
      RegroupHead(line, rest);
      FirstBreakAt(line[1..], rest);
    }
  }

  lemma SplitLinesAt(line: Bytes, rest: Bytes)
    requires BreakFree(line)
    requires rest != [] && IsBreak(rest[0])
    ensures SplitLines(line + rest) ==
            Split([line] + SplitLines(AfterBreak(rest)).lines, SplitLines(AfterBreak(rest)).tail)
  {
    FirstBreakAt(line, rest);
    TakeDrop(line, rest);
  }

  lemma SplitLinesNone(line: Bytes)
    requires BreakFree(line)
    ensures SplitLines(line) == Split([], line)
  {
    FirstBreakAt(line, []);
    EmptySides(line);
  }

  lemma {:induction false} FirstBreakBeyond(line: Bytes, rest: Bytes)
    requires BreakFree(line)
    ensures FirstBreak(line + rest) >= |line|
  {
    if line != [] {
      RegroupHead(line, rest);
      FirstBreakBeyond(line[1..], rest);
    }
  }

  /** Whatever follows, the first line of the split is at least as long as its known beginning. */
  lemma FirstLineLength(line: Bytes, rest: Bytes)
    requires BreakFree(line)
    ensures var s := SplitLines(line + rest);
            |if s.lines == [] then s.tail else s.lines[0]| >= |line|
  {
    FirstBreakBeyond(line, rest);
  }

  /** The bytes still to be cut into lines: a pending LF after CR belongs to the line before. */
  function Unsplit(c: Core, bytes: Bytes): Bytes {
    c.line + if c.sawCr && bytes != [] && bytes[0] == LF then bytes[1..] else bytes
  }

  lemma AfterBreakUnsplit(bytes: Bytes, next: Core)
    requires bytes != [] && next.line == [] && next.sawCr == (bytes[0] == CR)
    ensures Unsplit(next, bytes[1..]) == AfterBreak(bytes)
  {
    EmptySides(AfterBreak(bytes));
    if |bytes| > 1 { assert bytes[1..][1..] == bytes[2..]; }
  }

  /** A break closes the unfinished line; what is left is the split of the following bytes. */
  lemma SplitAtBreak(c: Core, bytes: Bytes, next: Core)
    requires BreakFree(c.line) && bytes != [] && IsBreak(bytes[0]) && !(c.sawCr && bytes[0] == LF)
    requires next.line == [] && next.sawCr == (bytes[0] == CR)
    ensures var s := SplitLines(Unsplit(c, bytes));
            var s' := SplitLines(Unsplit(next, bytes[1..]));
            s.lines != [] && s.lines[0] == c.line && s.lines[1..] == s'.lines && s.tail == s'.tail
  {
    SplitLinesAt(c.line, bytes);
    AfterBreakUnsplit(bytes, next);
    TakeDrop([c.line], SplitLines(AfterBreak(bytes)).lines);
  }

  /** What the reference says about the bytes the machine has not seen yet. */
  ghost function ParseRest(cfg: Config, c: Core, b: Block, bytes: Bytes, ending: Ending): seq<Item> {
    var s := SplitLines(Unsplit(c, bytes));
    ParseLines(cfg, b, s.lines, s.tail, ending)
  }

  lemma {:induction false} RunRefinesParse(cfg: Config, c: Core, b: Block, bytes: Bytes, ending: Ending)
    requires Holds(c, b) && Charged(cfg, c, b.used)
    ensures RunItems(cfg, c, bytes, ending) == ParseRest(cfg, c, b, bytes, ending)
    decreases |bytes|, 1
  {
    if bytes == [] {
      TailRefines(cfg, c, b, ending);
    } else if c.sawCr && bytes[0] == LF {
      RunRefinesParse(cfg, c.(sawCr := false), b, bytes[1..], ending);
    } else if !IsBreak(bytes[0]) {
      OrdinaryByteRefines(cfg, c, b, bytes, ending);
    } else if c.line == [] {
      BlankLineRefines(cfg, c, b, bytes, ending);
    } else {
      LineRefines(cfg, c, b, bytes, ending);
    }
  }

  lemma WithinLimits(cfg: Config, c: Core, used: nat, line: nat)
    requires Charged(cfg, c, used)
    ensures SizeError(cfg, used, |c.line|, false, line) == None
  {
  }

  lemma EofRefines(cfg: Config, c: Core, b: Block)
    requires Holds(c, b) && c.line != []
    ensures FinishEof(cfg, c) ==
            match ContentError(cfg, b.fields, c.line, SatAdd(b.lines, 1))
            case Some(e) => [Err(e)]
            case None => EventItems(b.fields + [FieldOf(c.line)], b.id)
  {
    FinishLineStep(cfg, c, b);
    var o := FinishLine(cfg, c);
    if o.Running? { DispatchStep(o.core, AddLine(b, c.line)); }
  }

  lemma TailRefines(cfg: Config, c: Core, b: Block, ending: Ending)
    requires Holds(c, b) && Charged(cfg, c, b.used)
    ensures FinishItems(cfg, c, ending) == ParseRest(cfg, c, b, [], ending)
  {
    EmptySides(c.line);
    SplitLinesNone(c.line);
    WithinLimits(cfg, c, b.used, SatAdd(b.lines, 1));
    if ending.Eof? {
      if c.line == [] {
        DispatchStep(c, b);
      } else {
        EofRefines(cfg, c, b);
      }
    }
  }

  /** A break that does not fit the event fails; otherwise it finishes the line. */
  lemma BreakStep(cfg: Config, c: Core, used: nat, x: byte, finished: Outcome)
    requires Charged(cfg, c, used) && IsBreak(x) && !(c.sawCr && x == LF)
    ensures var o := StepWith(cfg, c, x, finished);
            var e := SizeError(cfg, used, |c.line|, true, SatAdd(c.lineNumber, 1));
            if c.eventBytes + 1 > cfg.maxEventBytes
            then e.Some? && o == Failed(e.value)
            else e.None? && o == if x == CR then WithCr(finished) else finished
  {
  }

  /** The step that ends an empty line. */
  lemma BlankStep(cfg: Config, c: Core, b: Block, x: byte)
    requires Holds(c, b) && Charged(cfg, c, b.used)
    requires IsBreak(x) && c.line == [] && !(c.sawCr && x == LF)
    ensures var o := Step(cfg, c, x);
            match SizeError(cfg, b.used, 0, true, SatAdd(b.lines, 1))
            case Some(e) => o == Failed(e)
            case None =>
              && !o.Failed?
              && EventItems(b.fields, b.id) == (if o.Emitted? then [Ok(o.event)] else [])
              && Holds(o.core, CloseBlock(b)) && Charged(cfg, o.core, 0)
              && o.core.line == [] && o.core.sawCr == (x == CR)
  {
    BreakStep(cfg, c, b.used, x, FinishLine(cfg, Charge(c)));
    DispatchStep(Charge(c).(line := [], lineNumber := SatAdd(b.lines, 1)), b.(lines := SatAdd(b.lines, 1)));
  }

  lemma BlankLineRefines(cfg: Config, c: Core, b: Block, bytes: Bytes, ending: Ending)
    requires Holds(c, b) && Charged(cfg, c, b.used)
    requires bytes != [] && IsBreak(bytes[0]) && !(c.sawCr && bytes[0] == LF) && c.line == []
    ensures RunItems(cfg, c, bytes, ending) == ParseRest(cfg, c, b, bytes, ending)
    decreases |bytes|, 0
  {
    BlankStep(cfg, c, b, bytes[0]);
    var o := Step(cfg, c, bytes[0]);
    SplitAtBreak(c, bytes, INIT.(sawCr := bytes[0] == CR));
    if !o.Failed? {
      SplitAtBreak(c, bytes, o.core);
      RunRefinesParse(cfg, o.core, CloseBlock(b), bytes[1..], ending);
      EmptySides(RunItems(cfg, o.core, bytes[1..], ending));
    }
  }

  /** The step that ends a non-empty line. */
  lemma LineStep(cfg: Config, c: Core, b: Block, x: byte)
    requires Holds(c, b) && Charged(cfg, c, b.used)
    requires IsBreak(x) && c.line != []
    ensures var o := Step(cfg, c, x);
            match SizeError(cfg, b.used, |c.line|, true, SatAdd(b.lines, 1))
            case Some(e) => o == Failed(e)
            case None =>
              match ContentError(cfg, b.fields, c.line, SatAdd(b.lines, 1))
              case Some(e) => o == Failed(e)
              case None =>
                && o.Running?
                && Holds(o.core, AddLine(b, c.line)) && Charged(cfg, o.core, b.used + |c.line| + 1)
                && o.core.line == [] && o.core.sawCr == (x == CR)
  {
    BreakStep(cfg, c, b.used, x, FinishLine(cfg, Charge(c)));
    FinishLineStep(cfg, Charge(c), b);
  }

  lemma LineRefines(cfg: Config, c: Core, b: Block, bytes: Bytes, ending: Ending)
    requires Holds(c, b) && Charged(cfg, c, b.used)
    requires bytes != [] && IsBreak(bytes[0]) && c.line != []
    ensures RunItems(cfg, c, bytes, ending) == ParseRest(cfg, c, b, bytes, ending)
    decreases |bytes|, 0
  {
    LineStep(cfg, c, b, bytes[0]);
    var o := Step(cfg, c, bytes[0]);
    SplitAtBreak(c, bytes, INIT.(sawCr := bytes[0] == CR));
    if o.Running? {
      SplitAtBreak(c, bytes, o.core);
      RunRefinesParse(cfg, o.core, AddLine(b, c.line), bytes[1..], ending);
    }
  }

  /** The step that takes a byte into the line; a line too long by one byte stays too long. */
  lemma OrdinaryStep(cfg: Config, c: Core, used: nat, x: byte, finished: Outcome)
    requires Charged(cfg, c, used) && !IsBreak(x)
    ensures var o := StepWith(cfg, c, x, finished);
            && !o.Emitted?
            && (o.Running? ==> o.core == Charge(c).(line := c.line + [x]) && Charged(cfg, o.core, used))
            && (o.Failed? ==> forall length: nat, terminated: bool | length > |c.line| ::
                  SizeError(cfg, used, length, terminated, SatAdd(c.lineNumber, 1)) == Some(o.error))
  {
  }

  lemma OrdinaryByteRefines(cfg: Config, c: Core, b: Block, bytes: Bytes, ending: Ending)
    requires Holds(c, b) && Charged(cfg, c, b.used)
    requires bytes != [] && !IsBreak(bytes[0])
    ensures RunItems(cfg, c, bytes, ending) == ParseRest(cfg, c, b, bytes, ending)
    decreases |bytes|, 0
  {
    var longer := c.line + [bytes[0]];
    HeadTail(bytes);
    Regroup(c.line, [bytes[0]], bytes[1..]);
    OrdinaryStep(cfg, c, b.used, bytes[0], FinishLine(cfg, Charge(c)));
    var o := Step(cfg, c, bytes[0]);
    if o.Running? {
      RunRefinesParse(cfg, o.core, b, bytes[1..], ending);
    } else {
      FirstLineLength(longer, bytes[1..]);
      var s := SplitLines(longer + bytes[1..]);
      var length, terminated := if s.lines == [] then |s.tail| else |s.lines[0]|, s.lines != [];
      assert SizeError(cfg, b.used, length, terminated, SatAdd(b.lines, 1)) == Some(o.error);
    }
  }

  /** The incremental decoder computes the one-shot parse, whatever the input. */
  lemma DecoderRefinesParse(cfg: Config, bytes: Bytes, ending: Ending)
    ensures RunItems(cfg, INIT, bytes, ending) == Parse(cfg, bytes, ending)
  {
    EmptySides(bytes);
    RunRefinesParse(cfg, INIT, EMPTY, bytes, ending);
  }
}
