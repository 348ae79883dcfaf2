/** Histories that need no normalization: the target of a pass, described without running one. */
module Canonical {
  import opened Prelude
  import opened Domain
  import opened History
  import opened NormalizeSpec

  predicate AllKept(p: Policy, parts: seq<ContentPart>, assistant: bool) {
    forall i :: 0 <= i < |parts| ==> VerdictOn(p, parts[i], assistant).Keep?
  }

  /** Kept content first, tool calls last. */
  predicate TurnShape(p: Policy, parts: seq<ContentPart>) {
    && (forall i :: 0 <= i < |parts| ==> parts[i].ToolCallPart? || VerdictOn(p, parts[i], true).Keep?)
    && (forall i, j :: 0 <= i < j < |parts| ==> parts[i].ToolCallPart? ==> parts[j].ToolCallPart?)
  }

  /** Pairwise distinct and, for the OpenAI wire format, 1 to 40 characters of its alphabet. */
  predicate IdsFit(p: Policy, ids: seq<Bytes>) {
    Distinct(ids) && (p.toolCallId.OpenAi? ==> forall i :: 0 <= i < |ids| ==> OpenAiId(ids[i]))
  }

  predicate IsAnswer(m: Message) { m.role.Tool? && m.payload.Answer? && ValidAnswer(m.payload.result.content) }

  function AnsweredId(m: Message): Bytes { if m.payload.Answer? then m.payload.result.callId else [] }

  function AnswerIds(ms: seq<Message>): (ids: seq<Bytes>)
    ensures |ids| == |ms| && forall i :: 0 <= i < |ms| ==> ids[i] == AnsweredId(ms[i])
  {
    seq(|ms|, i requires 0 <= i < |ms| => AnsweredId(ms[i]))
  }

  /** The messages answer the calls: one valid result per call, in any order. */
  predicate AnswersCalls(ms: seq<Message>, ids: seq<Bytes>) {
    && |ms| == |ids|
    && (forall i :: 0 <= i < |ms| ==> IsAnswer(ms[i]))
    && Distinct(AnswerIds(ms))
    && ToSet(AnswerIds(ms)) == ToSet(ids)
  }

  predicate PlainFits(p: Policy, m: Message) {
    && m.payload.Content? && m.payload.parts != []
    && (m.role.Developer? ==> p.developerRole.Supported?)
    && AllKept(p, m.payload.parts, false)
  }

  predicate TurnFits(p: Policy, m: Message) {
    && m.payload.Content? && m.payload.parts != []
    && TurnShape(p, m.payload.parts)
    && IdsFit(p, IdsOf(CallsOf(m.payload.parts)))
  }

  /** Tool messages appear only as one block right after the assistant turn they answer. */
  predicate WellPaired(p: Policy, ms: seq<Message>)
    decreases |ms|
  {
    ms == [] ||
    match ms[0].role
    case Tool => false
    case Assistant =>
      && TurnFits(p, ms[0])
      && var ids := IdsOf(CallsOf(ms[0].payload.parts));
      && |ids| < |ms|
      && AnswersCalls(ms[1..1 + |ids|], ids)
      && WellPaired(p, ms[1 + |ids|..])
    case _ => PlainFits(p, ms[0]) && WellPaired(p, ms[1..])
  }

  // ---------------------------------------------------------------- text

  function PartsText(parts: seq<ContentPart>): nat {
    if parts == [] then 0 else PartsText(parts[..|parts| - 1]) + TextCost(parts[|parts| - 1])
  }

  function MessageText(m: Message): nat {
    PartsText(if m.payload.Content? then m.payload.parts else m.payload.result.content)
  }

  function TotalText(ms: seq<Message>): nat {
    if ms == [] then 0 else MessageText(ms[0]) + TotalText(ms[1..])
  }

  lemma {:induction false} TotalTextAppend(a: seq<Message>, b: seq<Message>)
    ensures TotalText(a + b) == TotalText(a) + TotalText(b)
  {
    if a == [] {
      EmptySides(b);
    } else {
      RegroupHead(a, b);
      TotalTextAppend(a[1..], b);
    }
  }

  /** Within the limits and in normal form. */
  predicate IsCanonical(p: Policy, ms: seq<Message>) {
    |ms| <= p.maxMessages && TotalText(ms) <= p.maxTextBytes && WellPaired(p, ms)
  }

  // ---------------------------------------------------------------- distinct sequences

  lemma {:induction false} DistinctCard<T>(s: seq<T>)
    requires Distinct(s)
    ensures |ToSet(s)| == |s|
  {
    if s == [] {
      assert ToSet(s) == {};
    } else {
      var init, last := s[..|s| - 1], s[|s| - 1];
      DistinctCard(init);
      assert ToSet(s) == ToSet(init) + {last};
      assert last !in ToSet(init);
    }
  }

  lemma {:induction false} DistinctCount<T>(s: seq<T>, x: T)
    requires Distinct(s)
    ensures multiset(s)[x] == if x in s then 1 else 0
  {
    if s != [] {
      DistinctCount(s[..|s| - 1], x);
      SplitLast(s);
      assert multiset(s) == multiset(s[..|s| - 1]) + multiset{s[|s| - 1]};
    }
  }

  /** A block of results is a permutation of the calls it answers. */
  lemma AnswersArePermutation(ms: seq<Message>, ids: seq<Bytes>)
    requires AnswersCalls(ms, ids) && Distinct(ids)
    ensures multiset(AnswerIds(ms)) == multiset(ids)
  {
    forall x ensures multiset(AnswerIds(ms))[x] == multiset(ids)[x] {
      DistinctCount(AnswerIds(ms), x);
      DistinctCount(ids, x);
      assert x in AnswerIds(ms) <==> x in ToSet(AnswerIds(ms));
      assert x in ids <==> x in ToSet(ids);
    }
  }
}
