/** Every reported item respects the limits, and an error ends the report. */
module SseBounds {
  import opened Prelude
  import opened Sse
  import opened SseReference

  /** Event data leaves room for its field name; an error is the last item. */
  ghost predicate Bounded(cfg: Config, items: seq<Item>) {
    forall i :: 0 <= i < |items| ==>
      match items[i]
      case Ok(event) => |event.data| + 4 <= cfg.maxEventBytes
      case Err(_) => i == |items| - 1
  }

  lemma DataFieldLength(line: Bytes)
    requires FieldOf(line).Data?
    ensures |FieldOf(line).value| + 4 <= |line|
  {
    assert |SplitField(line).0| == 4;
  }

  /** Bytes a block's data fields must have cost: value, name and line break. */
  function DataCost(fields: seq<Field>): nat {
    if fields == [] then 0
    else
      var last := fields[|fields| - 1];
      DataCost(fields[..|fields| - 1]) + if last.Data? then |last.value| + 5 else 0
  }

  lemma {:induction false} JoinLength(fields: seq<Field>)
    requires DataOf(fields) != []
    ensures |Join(DataOf(fields), LF)| + 5 <= DataCost(fields)
  {
    var init, last := fields[..|fields| - 1], fields[|fields| - 1];
    if DataOf(init) != [] { JoinLength(init); }
    if last.Data? {
      TakeDrop(DataOf(init), [last.value]);
    } else {
      EmptySides(DataOf(init));
    }
  }

  lemma AddLineCost(b: Block, text: Bytes)
    requires DataCost(b.fields) <= b.used
    ensures DataCost(b.fields + [FieldOf(text)]) <= b.used + |text| + 1
  {
    TakeDrop(b.fields, [FieldOf(text)]);
    if FieldOf(text).Data? { DataFieldLength(text); }
  }

  lemma EventBounded(cfg: Config, fields: seq<Field>, id: Option<Bytes>)
    requires DataCost(fields) <= cfg.maxEventBytes + 1
    ensures Bounded(cfg, EventItems(fields, id))
  {
    if DataOf(fields) != [] { JoinLength(fields); }
  }

  lemma EventThenBounded(cfg: Config, fields: seq<Field>, id: Option<Bytes>, more: seq<Item>)
    requires DataCost(fields) <= cfg.maxEventBytes + 1 && Bounded(cfg, more)
    ensures Bounded(cfg, EventItems(fields, id) + more)
  {
    EventBounded(cfg, fields, id);
  }

  lemma TailBounded(cfg: Config, b: Block, tail: Bytes, ending: Ending)
    requires DataCost(b.fields) <= b.used <= cfg.maxEventBytes
    ensures Bounded(cfg, ParseTail(cfg, b, tail, ending))
  {
    EventBounded(cfg, b.fields, b.id);
    if SizeError(cfg, b.used, |tail|, false, SatAdd(b.lines, 1)) == None {
      AddLineCost(b, tail);
      EventBounded(cfg, b.fields + [FieldOf(tail)], b.id);
    }
  }

  lemma {:induction false} ParseLinesBounded(cfg: Config, b: Block, lines: seq<Bytes>, tail: Bytes, ending: Ending)
    requires DataCost(b.fields) <= b.used <= cfg.maxEventBytes
    ensures Bounded(cfg, ParseLines(cfg, b, lines, tail, ending))
    decreases |lines|
  {
    if lines == [] {
      TailBounded(cfg, b, tail, ending);
    } else if SizeError(cfg, b.used, |lines[0]|, true, SatAdd(b.lines, 1)) == None {
      if lines[0] == [] {
        ParseLinesBounded(cfg, CloseBlock(b), lines[1..], tail, ending);
        EventThenBounded(cfg, b.fields, b.id, ParseLines(cfg, CloseBlock(b), lines[1..], tail, ending));
      } else {
        AddLineCost(b, lines[0]);
        ParseLinesBounded(cfg, AddLine(b, lines[0]), lines[1..], tail, ending);
      }
    }
  }

  lemma ParseBounded(cfg: Config, bytes: Bytes, ending: Ending)
    ensures Bounded(cfg, Parse(cfg, bytes, ending))
  {
    var s := SplitLines(bytes);
    ParseLinesBounded(cfg, EMPTY, s.lines, s.tail, ending);
  }
}

/** The three spellings of a line break are interchangeable. */
module SseLineEndings {
  import opened Prelude
  import opened Sse
  import opened SseReference
  import opened SseMachine

  /** `s` with every LF spelled as `brk`. */
  function Respell(s: Bytes, brk: Bytes): Bytes {
    if s == [] then []
    else (if s[0] == LF then brk else [s[0]]) + Respell(s[1..], brk)
  }

  lemma {:induction false} RespellAppend(a: Bytes, b: Bytes, brk: Bytes)
    ensures Respell(a + b, brk) == Respell(a, brk) + Respell(b, brk)
  {
    if a == [] {
      assert a + b == b;
    } else {
      assert (a + b)[1..] == a[1..] + b;
      RespellAppend(a[1..], b, brk);
    }
  }

  lemma {:induction false} RespellLine(line: Bytes, brk: Bytes)
    requires BreakFree(line)
    ensures Respell(line, brk) == line
  {
    if line != [] { RespellLine(line[1..], brk); }
  }

  lemma {:induction false} RespellNoLf(s: Bytes)
    ensures LF !in Respell(s, [CR])
  {
    if s != [] { RespellNoLf(s[1..]); }
  }

  lemma {:induction false} SplitRespelled(s: Bytes, brk: Bytes)
    requires CR !in s
    requires brk == [CR, LF] || brk == [CR]
    ensures SplitLines(Respell(s, brk)) == SplitLines(s)
    decreases |s|
  {
    var i := FirstBreak(s);
    var line := s[..i];
    RespellLine(line, brk);
    if i == |s| {
      assert s == line;
    } else {
      var rest := s[i + 1..];
      assert s == line + ([LF] + rest);
      RespellAppend(line, [LF] + rest, brk);
      assert ([LF] + rest)[1..] == rest;
      var spelled := brk + Respell(rest, brk);
      assert Respell(s, brk) == line + spelled;
      RespellNoLf(rest);
      assert AfterBreak(spelled) == Respell(rest, brk);
      SplitLinesAt(line, spelled);
      SplitLinesAt(line, [LF] + rest);
      SplitRespelled(rest, brk);
    }
  }

  /** LF, CR LF and CR streams decode alike, including every limit and UTF-8 failure. */
  lemma LineEndingsAgree(cfg: Config, s: Bytes, ending: Ending)
    requires CR !in s
    ensures Parse(cfg, Respell(s, [CR, LF]), ending) == Parse(cfg, s, ending)
    ensures Parse(cfg, Respell(s, [CR]), ending) == Parse(cfg, s, ending)
  {
    SplitRespelled(s, [CR, LF]);
    SplitRespelled(s, [CR]);
  }
}

/** Printing events in canonical form and decoding the bytes gives the events back. */
module SseRoundTrip {
  import opened Prelude
  import opened Sse
  import opened SseReference
  import opened SseMachine

  /** An event to publish; `id` is the new id, if it changes. */
  datatype Outgoing = Outgoing(data: Bytes, eventType: Option<Bytes>, id: Option<Bytes>, retry: Option<nat>)

  /** Cuts at every LF; there is one piece more than there are LFs. */
  function Cut(s: Bytes): (pieces: seq<Bytes>)
    ensures pieces != []
    decreases |s|
  {
    var i := IndexOf(s, LF);
    if i == |s| then [s] else [s[..i]] + Cut(s[i + 1..])
  }

  function Decimal(n: nat): Bytes {
    if n < 10 then [48 + n] else Decimal(n / 10) + [48 + n % 10]
  }

  function FieldLine(name: Bytes, value: Bytes): Bytes { name + [COLON, SPACE] + value }

  function OptionalLine(name: Bytes, value: Option<Bytes>): seq<Bytes> {
    if value.Some? then [FieldLine(name, value.value)] else []
  }

  function DataLines(pieces: seq<Bytes>): (lines: seq<Bytes>)
    ensures |lines| == |pieces|
    ensures forall i :: 0 <= i < |pieces| ==> lines[i] == FieldLine(DATA, pieces[i])
  {
    if pieces == [] then [] else DataLines(pieces[..|pieces| - 1]) + [FieldLine(DATA, pieces[|pieces| - 1])]
  }

  /** The lines of one event, without the closing blank line. */
  function EventLines(m: Outgoing): seq<Bytes> {
    OptionalLine(EVENT, m.eventType) + OptionalLine(ID, m.id)
    + OptionalLine(RETRY, RetryText(m)) + DataLines(Cut(m.data))
  }

  /** Every line followed by LF. */
  function PrintLines(lines: seq<Bytes>): Bytes {
    if lines == [] then [] else lines[0] + [LF] + PrintLines(lines[1..])
  }

  function Encode(ms: seq<Outgoing>): Bytes {
    if ms == [] then [] else PrintLines(EventLines(ms[0]) + [[]]) + Encode(ms[1..])
  }

  /** What a consumer is to receive: an id stays in force until it is replaced. */
  function Delivered(ms: seq<Outgoing>, id: Option<Bytes>): seq<Item> {
    if ms == [] then []
    else
      var id' := if ms[0].id.Some? then ms[0].id else id;
      [Ok(SseEvent(ms[0].data, ms[0].eventType, id', ms[0].retry))] + Delivered(ms[1..], id')
  }

  /** Text that fits on one line. */
  predicate LineText(s: Bytes) { BreakFree(s) && ValidUtf8(s) }

  predicate Encodable(m: Outgoing) {
    && CR !in m.data && ValidUtf8(m.data)
    && (m.eventType.Some? ==> LineText(m.eventType.value))
    && (m.id.Some? ==> LineText(m.id.value) && NUL !in m.id.value)
    && (m.retry.Some? ==> m.retry.value <= U64_MAX)
  }

  /** Bytes charged for the lines: each with its break. */
  function LinesCost(lines: seq<Bytes>): nat {
    if lines == [] then 0 else |lines[0]| + 1 + LinesCost(lines[1..])
  }

  predicate FitsLimits(cfg: Config, m: Outgoing) {
    var lines := EventLines(m);
    && (forall i :: 0 <= i < |lines| ==> |lines[i]| <= cfg.maxLineBytes)
    && LinesCost(lines) + 1 <= cfg.maxEventBytes
    && (cfg.maxFields.Some? ==> |lines| <= cfg.maxFields.value)
  }

  // ---------------------------------------------------------------- text

  lemma {:induction false} JoinCut(s: Bytes)
    ensures Join(Cut(s), LF) == s
    decreases |s|
  {
    var i := IndexOf(s, LF);
    if i < |s| {
      JoinCut(s[i + 1..]);
      JoinFront(s[..i], Cut(s[i + 1..]));
      CutAt(s, i);
    }
  }

  lemma {:induction false} JoinFront(first: Bytes, rest: seq<Bytes>)
    requires rest != []
    ensures Join([first] + rest, LF) == first + [LF] + Join(rest, LF)
    decreases |rest|
  {
    var all := [first] + rest;
    if |rest| == 1 {
      assert all[..1] == [first];
    } else {
      assert all[..|all| - 1] == [first] + rest[..|rest| - 1];
      JoinFront(first, rest[..|rest| - 1]);
    }
  }

  lemma AsciiPrefix(b: byte, s: Bytes)
    requires b < 0x80
    ensures ValidUtf8([b] + s) == ValidUtf8(s)
  {
    assert Utf8Lead([b] + s) == 1;
    assert ([b] + s)[1..] == s;
  }

  lemma {:induction false} AsciiPrefixes(p: Bytes, s: Bytes)
    requires forall i :: 0 <= i < |p| ==> p[i] < 0x80
    ensures ValidUtf8(p + s) == ValidUtf8(s)
  {
    if p == [] {
      assert p + s == s;
    } else {
      assert p + s == [p[0]] + (p[1..] + s);
      AsciiPrefix(p[0], p[1..] + s);
      AsciiPrefixes(p[1..], s);
    }
  }

  lemma LeadBeforeLf(a: Bytes, b: Bytes)
    requires a != [] && Utf8Lead(a + [LF] + b) > 0
    ensures Utf8Lead(a) == Utf8Lead(a + [LF] + b)
  {
    var s := a + [LF] + b;
    assert s[|a|] == LF;
    assert forall i :: 0 <= i < |a| ==> s[i] == a[i];
  }

  lemma DropInto(a: Bytes, b: Bytes, k: nat)
    requires k <= |a|
    ensures (a + [LF] + b)[k..] == a[k..] + [LF] + b
  {
  }

  /** An LF never sits inside a multi-byte sequence, so both sides of it are valid. */
  lemma {:induction false} Utf8SplitsAtLf(a: Bytes, b: Bytes)
    requires ValidUtf8(a + [LF] + b)
    ensures ValidUtf8(a) && ValidUtf8(b)
    decreases |a|
  {
    var s := a + [LF] + b;
    if a == [] {
      assert s == [LF] + b;
      AsciiPrefix(LF, b);
    } else {
      LeadBeforeLf(a, b);
      DropInto(a, b, Utf8Lead(a));
      Utf8SplitsAtLf(a[Utf8Lead(a)..], b);
    }
  }

  lemma {:induction false} CutText(s: Bytes)
    requires CR !in s && ValidUtf8(s)
    ensures forall i :: 0 <= i < |Cut(s)| ==> LineText(Cut(s)[i])
    decreases |s|
  {
    var i := IndexOf(s, LF);
    if i < |s| {
      CutAt(s, i);
      Utf8SplitsAtLf(s[..i], s[i + 1..]);
      CutText(s[i + 1..]);
    }
  }

  lemma {:induction false} DecimalReads(n: nat)
    ensures Decimal(n) != [] && AllDigits(Decimal(n)) && DecimalValue(Decimal(n)) == n
  {
    if n >= 10 {
      DecimalReads(n / 10);
      assert Decimal(n)[..|Decimal(n)| - 1] == Decimal(n / 10);
    }
  }

  lemma {:induction false} AsciiText(s: Bytes)
    requires AllDigits(s)
    ensures LineText(s)
  {
    AsciiPrefixes(s, []);
    assert s + [] == s;
  }

  // ---------------------------------------------------------------- one field line

  predicate FieldName(name: Bytes) {
    name != [] && forall i :: 0 <= i < |name| ==> 97 <= name[i] <= 122
  }

  lemma {:induction false} IndexOfAfter(p: Bytes, b: byte, s: Bytes)
    requires b !in p
    ensures IndexOf(p + [b] + s, b) == |p|
  {
    if p != [] {
      assert (p + [b] + s)[1..] == p[1..] + [b] + s;
      IndexOfAfter(p[1..], b, s);
    }
  }

  lemma SplitFieldLine(name: Bytes, value: Bytes)
    requires FieldName(name)
    ensures SplitField(FieldLine(name, value)) == (name, value)
  {
    var line := FieldLine(name, value);
    assert line == name + [COLON] + ([SPACE] + value);
    IndexOfAfter(name, COLON, [SPACE] + value);
    assert line[..|name|] == name && line[|name| + 1..] == [SPACE] + value;
    assert ([SPACE] + value)[1..] == value;
  }

  lemma FieldLineText(name: Bytes, value: Bytes)
    requires FieldName(name) && LineText(value)
    ensures LineText(FieldLine(name, value)) && FieldLine(name, value) != [] && FieldLine(name, value)[0] != COLON
  {
    AsciiPrefixes(name + [COLON, SPACE], value);
    forall i | 0 <= i < |FieldLine(name, value)| ensures !IsBreak(FieldLine(name, value)[i]) {
      if i >= |name| + 2 { assert FieldLine(name, value)[i] == value[i - |name| - 2]; }
    }
  }

  /** A printed line: one line of text that is a field, not a comment. */
  predicate Printed(l: Bytes) { LineText(l) && l != [] && l[0] != COLON }

  // ---------------------------------------------------------------- one event

  function FieldsOf(lines: seq<Bytes>): (fields: seq<Field>)
    ensures |fields| == |lines|
    ensures forall i :: 0 <= i < |lines| ==> fields[i] == FieldOf(lines[i])
  {
    seq(|lines|, i requires 0 <= i < |lines| => FieldOf(lines[i]))
  }

  lemma {:induction false} FieldsAppend(a: seq<Field>, b: seq<Field>, id: Option<Bytes>)
    ensures DataOf(a + b) == DataOf(a) + DataOf(b)
    ensures TypeOf(a + b) == if TypeOf(b).Some? then TypeOf(b) else TypeOf(a)
    ensures RetryOf(a + b) == if RetryOf(b).Some? then RetryOf(b) else RetryOf(a)
    ensures IdOf(a + b, id) == IdOf(b, IdOf(a, id))
    decreases |b|
  {
    if b == [] {
      EmptySides(a);
      EmptySides(DataOf(a));
    } else {
      RegroupLast(a, b);
      FieldsAppend(a, b[..|b| - 1], id);
      var last := b[|b| - 1];
      Regroup(DataOf(a), DataOf(b[..|b| - 1]), if last.Data? then [last.value] else []);
    }
  }

  /** The fields of one event, as its lines are meant to read. */
  function DataFields(pieces: seq<Bytes>): (fields: seq<Field>)
    ensures |fields| == |pieces|
    ensures forall i :: 0 <= i < |pieces| ==> fields[i] == Data(pieces[i])
  {
    if pieces == [] then [] else DataFields(pieces[..|pieces| - 1]) + [Data(pieces[|pieces| - 1])]
  }

  function HeadFields(m: Outgoing): seq<Field> {
    (if m.eventType.Some? then [EventType(m.eventType.value)] else [])
    + (if m.id.Some? then [Id(m.id.value)] else [])
    + (if m.retry.Some? then [Retry(m.retry.value)] else [])
  }

  lemma {:induction false} DataFieldsRead(pieces: seq<Bytes>, id: Option<Bytes>)
    ensures DataOf(DataFields(pieces)) == pieces
    ensures TypeOf(DataFields(pieces)) == None && RetryOf(DataFields(pieces)) == None
    ensures IdOf(DataFields(pieces), id) == id
  {
    if pieces != [] {
      var init, last := pieces[..|pieces| - 1], pieces[|pieces| - 1];
      DataFieldsRead(init, id);
      FieldsExtend(DataFields(init), Data(last), id);
      CutAt(pieces, |pieces| - 1);
      EmptySides(init + [last]);
    }
  }

  lemma HeadFieldsRead(m: Outgoing, id: Option<Bytes>)
    ensures var head := HeadFields(m);
            && DataOf(head) == [] && TypeOf(head) == m.eventType && RetryOf(head) == m.retry
            && IdOf(head, id) == (if m.id.Some? then m.id else id)
  {
    var a := if m.eventType.Some? then [EventType(m.eventType.value)] else [];
    var b := if m.id.Some? then [Id(m.id.value)] else [];
    var c := if m.retry.Some? then [Retry(m.retry.value)] else [];
    FieldsAppend(a, b, id);
    FieldsAppend(a + b, c, id);
  }

  lemma EventOfFields(m: Outgoing, id: Option<Bytes>)
    ensures var fields := HeadFields(m) + DataFields(Cut(m.data));
            var id' := if m.id.Some? then m.id else id;
            && EventItems(fields, id) == [Ok(SseEvent(m.data, m.eventType, id', m.retry))]
            && IdOf(fields, id) == id'
  {
    HeadFieldsRead(m, id);
    DataFieldsRead(Cut(m.data), IdOf(HeadFields(m), id));
    FieldsAppend(HeadFields(m), DataFields(Cut(m.data)), id);
    EmptySides(Cut(m.data));
    JoinCut(m.data);
  }

  function RetryText(m: Outgoing): Option<Bytes> {
    if m.retry.Some? then Some(Decimal(m.retry.value)) else None
  }

  lemma ReadsAs(value: Bytes)
    ensures FieldOf(FieldLine(DATA, value)) == Data(value)
    ensures FieldOf(FieldLine(EVENT, value)) == EventType(value)
    ensures NUL !in value ==> FieldOf(FieldLine(ID, value)) == Id(value)
    ensures ParseRetry(value).Some? ==> FieldOf(FieldLine(RETRY, value)) == Retry(ParseRetry(value).value)
  {
    SplitFieldLine(DATA, value);
    SplitFieldLine(EVENT, value);
    SplitFieldLine(ID, value);
    SplitFieldLine(RETRY, value);
  }

  lemma FieldsOfAppend(a: seq<Bytes>, b: seq<Bytes>)
    ensures FieldsOf(a + b) == FieldsOf(a) + FieldsOf(b)
  {
  }

  lemma FieldsOfFirst(lines: seq<Bytes>)
    requires lines != []
    ensures FieldsOf(lines) == [FieldOf(lines[0])] + FieldsOf(lines[1..])
  {
  }

  lemma OptionalReadsAs(m: Outgoing)
    requires Encodable(m)
    ensures FieldsOf(OptionalLine(EVENT, m.eventType)) ==
            if m.eventType.Some? then [EventType(m.eventType.value)] else []
    ensures FieldsOf(OptionalLine(ID, m.id)) == if m.id.Some? then [Id(m.id.value)] else []
    ensures FieldsOf(OptionalLine(RETRY, RetryText(m))) == if m.retry.Some? then [Retry(m.retry.value)] else []
  {
    if m.eventType.Some? { ReadsAs(m.eventType.value); }
    if m.id.Some? { ReadsAs(m.id.value); }
    if m.retry.Some? {
      DecimalReads(m.retry.value);
      ReadsAs(Decimal(m.retry.value));
    }
  }

  lemma DataLinesReadAs(pieces: seq<Bytes>)
    ensures FieldsOf(DataLines(pieces)) == DataFields(pieces)
  {
    forall i | 0 <= i < |pieces| ensures FieldsOf(DataLines(pieces))[i] == DataFields(pieces)[i] {
      ReadsAs(pieces[i]);
    }
  }

  lemma EventLinesReadAs(m: Outgoing)
    requires Encodable(m)
    ensures FieldsOf(EventLines(m)) == HeadFields(m) + DataFields(Cut(m.data))
  {
    var a, b, c := OptionalLine(EVENT, m.eventType), OptionalLine(ID, m.id), OptionalLine(RETRY, RetryText(m));
    OptionalReadsAs(m);
    DataLinesReadAs(Cut(m.data));
    FieldsOfAppend(a, b);
    FieldsOfAppend(a + b, c);
    FieldsOfAppend(a + b + c, DataLines(Cut(m.data)));
  }

  lemma OptionalPrinted(name: Bytes, value: Option<Bytes>)
    requires FieldName(name) && (value.Some? ==> LineText(value.value))
    ensures forall i :: 0 <= i < |OptionalLine(name, value)| ==> Printed(OptionalLine(name, value)[i])
  {
    if value.Some? { FieldLineText(name, value.value); }
  }

  lemma EventLinesPrinted(m: Outgoing)
    requires Encodable(m)
    ensures forall i :: 0 <= i < |EventLines(m)| ==> Printed(EventLines(m)[i])
  {
    if m.retry.Some? {
      DecimalReads(m.retry.value);
      AsciiText(Decimal(m.retry.value));
    }
    OptionalPrinted(EVENT, m.eventType);
    OptionalPrinted(ID, m.id);
    OptionalPrinted(RETRY, RetryText(m));
    CutText(m.data);
    forall i | 0 <= i < |Cut(m.data)| ensures Printed(DataLines(Cut(m.data))[i]) {
      FieldLineText(DATA, Cut(m.data)[i]);
    }
  }

  // ---------------------------------------------------------------- whole streams

  lemma SplitLf(line: Bytes, more: Bytes)
    requires BreakFree(line)
    ensures SplitLines(line + ([LF] + more)) == Split([line] + SplitLines(more).lines, SplitLines(more).tail)
  {
    SplitLinesAt(line, [LF] + more);
    assert AfterBreak([LF] + more) == more;
  }

  lemma SplitPrintedFirst(lines: seq<Bytes>, rest: Bytes, s: Split)
    requires lines != [] && BreakFree(lines[0])
    requires SplitLines(PrintLines(lines[1..]) + rest) == s
    ensures SplitLines(PrintLines(lines) + rest) == Split([lines[0]] + s.lines, s.tail)
  {
    var more := PrintLines(lines[1..]) + rest;
    Regroup(lines[0] + [LF], PrintLines(lines[1..]), rest);
    Regroup(lines[0], [LF], more);
    SplitLf(lines[0], more);
  }

  predicate AllBreakFree(lines: seq<Bytes>) { forall i :: 0 <= i < |lines| ==> BreakFree(lines[i]) }

  lemma {:induction false} SplitPrinted(lines: seq<Bytes>, rest: Bytes)
    requires AllBreakFree(lines)
    ensures SplitLines(PrintLines(lines) + rest) == Split(lines + SplitLines(rest).lines, SplitLines(rest).tail)
  {
    if lines == [] {
      EmptySides(rest);
      EmptySides(SplitLines(rest).lines);
    } else {
      SplitPrinted(lines[1..], rest);
      var s := SplitLines(PrintLines(lines[1..]) + rest);
      SplitPrintedFirst(lines, rest, s);
      RegroupHead(lines, SplitLines(rest).lines);
    }
  }

  /** The block after `lines` joined it. */
  function AddLines(b: Block, lines: seq<Bytes>): Block
    decreases |lines|
  {
    if lines == [] then b else AddLines(AddLine(b, lines[0]), lines[1..])
  }

  lemma {:induction false} AddLinesFields(b: Block, lines: seq<Bytes>)
    ensures AddLines(b, lines).fields == b.fields + FieldsOf(lines)
    ensures AddLines(b, lines).used == b.used + LinesCost(lines)
    ensures AddLines(b, lines).id == b.id
    decreases |lines|
  {
    if lines == [] {
      EmptySides(b.fields);
    } else {
      AddLinesFields(AddLine(b, lines[0]), lines[1..]);
      FieldsOfFirst(lines);
      Regroup(b.fields, [FieldOf(lines[0])], FieldsOf(lines[1..]));
    }
  }

  predicate FitAfter(cfg: Config, b: Block, lines: seq<Bytes>) {
    && (forall i :: 0 <= i < |lines| ==> Printed(lines[i]) && |lines[i]| <= cfg.maxLineBytes)
    && b.used + LinesCost(lines) <= cfg.maxEventBytes
    && (cfg.maxFields.Some? ==> FieldCount(b.fields) + |lines| <= cfg.maxFields.value)
  }

  lemma PassLine(cfg: Config, b: Block, lines: seq<Bytes>, more: seq<Bytes>)
    requires lines != [] && FitAfter(cfg, b, lines)
    ensures FitAfter(cfg, AddLine(b, lines[0]), lines[1..])
    ensures ParseLines(cfg, b, lines + more, [], Eof) ==
            ParseLines(cfg, AddLine(b, lines[0]), lines[1..] + more, [], Eof)
  {
    RegroupHead(lines, more);
    FieldsExtend(b.fields, FieldOf(lines[0]), None);
  }

  /** Printed lines within the limits pass into the block one after the other. */
  lemma {:induction false} PassLines(cfg: Config, b: Block, lines: seq<Bytes>, more: seq<Bytes>)
    requires FitAfter(cfg, b, lines)
    ensures ParseLines(cfg, b, lines + more, [], Eof) == ParseLines(cfg, AddLines(b, lines), more, [], Eof)
    decreases |lines|
  {
    if lines == [] {
      EmptySides(more);
    } else {
      PassLine(cfg, b, lines, more);
      PassLines(cfg, AddLine(b, lines[0]), lines[1..], more);
    }
  }

  function StreamLines(ms: seq<Outgoing>): seq<Bytes> {
    if ms == [] then [] else EventLines(ms[0]) + [[]] + StreamLines(ms[1..])
  }

  lemma {:induction false} SplitEncoded(ms: seq<Outgoing>)
    requires forall i :: 0 <= i < |ms| ==> Encodable(ms[i])
    ensures SplitLines(Encode(ms)) == Split(StreamLines(ms), [])
  {
    if ms != [] {
      SplitEncoded(ms[1..]);
      EventLinesPrinted(ms[0]);
      var lines := EventLines(ms[0]) + [[]];
      assert AllBreakFree(lines);
      SplitPrinted(lines, Encode(ms[1..]));
    }
  }

  lemma BlankLine(cfg: Config, b: Block, more: seq<Bytes>)
    requires b.used + 1 <= cfg.maxEventBytes
    ensures ParseLines(cfg, b, [[]] + more, [], Eof) ==
            EventItems(b.fields, b.id) + ParseLines(cfg, CloseBlock(b), more, [], Eof)
  {
    TakeDrop([[]], more);
  }

  /** One event and its blank line. */
  lemma ParseEvent(cfg: Config, m: Outgoing, id: Option<Bytes>, n: nat, more: seq<Bytes>)
    returns (n': nat)
    requires Encodable(m) && FitsLimits(cfg, m)
    ensures var id' := if m.id.Some? then m.id else id;
            ParseLines(cfg, Block([], 0, id, n), EventLines(m) + ([[]] + more), [], Eof)
            == [Ok(SseEvent(m.data, m.eventType, id', m.retry))] + ParseLines(cfg, Block([], 0, id', n'), more, [], Eof)
  {
    var b, lines := Block([], 0, id, n), EventLines(m);
    EventLinesPrinted(m);
    PassLines(cfg, b, lines, [[]] + more);
    AddLinesFields(b, lines);
    EmptySides(FieldsOf(lines));
    EventLinesReadAs(m);
    EventOfFields(m, id);
    BlankLine(cfg, AddLines(b, lines), more);
    n' := SatAdd(AddLines(b, lines).lines, 1);
  }

  lemma {:induction false} ParseStream(cfg: Config, ms: seq<Outgoing>, id: Option<Bytes>, n: nat)
    requires forall i :: 0 <= i < |ms| ==> Encodable(ms[i]) && FitsLimits(cfg, ms[i])
    ensures ParseLines(cfg, Block([], 0, id, n), StreamLines(ms), [], Eof) == Delivered(ms, id)
    decreases |ms|
  {
    if ms != [] {
      var more := StreamLines(ms[1..]);
      Regroup(EventLines(ms[0]), [[]], more);
      var n' := ParseEvent(cfg, ms[0], id, n, more);
      ParseStream(cfg, ms[1..], if ms[0].id.Some? then ms[0].id else id, n');
    }
  }

  /** Decoding inverts printing. */
  lemma RoundTrip(cfg: Config, ms: seq<Outgoing>)
    requires forall i :: 0 <= i < |ms| ==> Encodable(ms[i]) && FitsLimits(cfg, ms[i])
    ensures Parse(cfg, Encode(ms), Eof) == Delivered(ms, None)
  {
    SplitEncoded(ms);
    ParseStream(cfg, ms, None, 0);
  }
}
