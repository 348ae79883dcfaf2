/** What a pass does to the results of a turn, and to whole heads of a history. */
module NormalizeTurns {
  import opened Prelude
  import opened Domain
  import opened History
  import opened NormalizeSpec
  import opened Canonical
  import opened NormalizeParts

  // ---------------------------------------------------------------- one result

  /** A result that carries a call's original id is assigned to that very call. */
  lemma ResolveFinds(ids: seq<Bytes>, ids': seq<Bytes>, calls: seq<ToolCall>, i: nat)
    requires |calls| == |ids| == |ids'| && ids == IdsOf(calls) && Distinct(ids) && i < |ids|
    ensures ResolveId(Changes(ids, ids'), calls, ids[i]) == Ok(ids'[i])
  {
    LookupFinds(ids, ids', i);
    assert ids[i] in IdsOf(calls);
  }

  lemma RemapMeans(p: Policy, r: ToolResult, id: Bytes, t: Tally)
    ensures RemapResult(p, r, id, t).Ok? <==> ValidAnswer(r.content) && t.text + PartsText(r.content) <= p.maxTextBytes
    ensures RemapResult(p, r, id, t).Ok? ==>
              RemapResult(p, r, id, t).value == (r.(callId := id), t.(text := t.text + PartsText(r.content)))
  {
    if ValidAnswer(r.content) {
      assert r.content[..0] == [];
      assert AnswerText(p, r.content, t) == AddTextBytes(p, t, |r.content[0].text|);
    }
  }

  // ---------------------------------------------------------------- a run of results

  function ResultIds(results: seq<ToolResult>): (ids: seq<Bytes>)
    ensures |ids| == |results| && forall i :: 0 <= i < |results| ==> ids[i] == results[i].callId
  {
    seq(|results|, i requires 0 <= i < |results| => results[i].callId)
  }

  function ResultsText(results: seq<ToolResult>): nat {
    if results == [] then 0 else ResultsText(results[..|results| - 1]) + PartsText(results[|results| - 1].content)
  }

  /** `r` is the result of `m` under the id it resolves to. */
  ghost predicate Remaps(asked: Asked, m: Message, r: ToolResult) {
    && m.payload.Answer?
    && ResolveId(asked.mappings, asked.calls, m.payload.result.callId) == Ok(r.callId)
    && r == m.payload.result.(callId := r.callId)
    && ValidAnswer(r.content)
  }

  /** Ids of results are taken out of the pending ones, one by one. */
  ghost predicate TakesIds(asked: Asked, a: Answers) {
    && Distinct(ResultIds(a.results))
    && ToSet(ResultIds(a.results)) <= asked.expected
    && a.pending == asked.expected - ToSet(ResultIds(a.results))
  }

  ghost predicate Answered(p: Policy, asked: Asked, ms: seq<Message>, t: Tally, a: Answers) {
    && |a.results| == |ms|
    && (forall j :: 0 <= j < |ms| ==> Remaps(asked, ms[j], a.results[j]))
    && TakesIds(asked, a)
    && a.tally.text == t.text + ResultsText(a.results)
    && (t.text <= p.maxTextBytes ==> a.tally.text <= p.maxTextBytes)
  }

  lemma TakesNext(asked: Asked, a: Answers, r: ToolResult, t: Tally)
    requires TakesIds(asked, a) && r.callId in a.pending
    ensures TakesIds(asked, Answers(a.pending - {r.callId}, a.results + [r], t))
    ensures ResultsText(a.results + [r]) == ResultsText(a.results) + PartsText(r.content)
  {
    assert ResultIds(a.results + [r]) == ResultIds(a.results) + [r.callId];
    assert ToSet(ResultIds(a.results + [r])) == ToSet(ResultIds(a.results)) + {r.callId};
    TakeDrop(a.results, [r]);
  }

  lemma AnsweredStep(p: Policy, asked: Asked, ms: seq<Message>, m: Message, t: Tally, a: Answers)
    requires Answered(p, asked, ms, t, a) && AnswerStep(p, asked, m, a).Ok?
    ensures Answered(p, asked, ms + [m], t, AnswerStep(p, asked, m, a).value)
  {
    var id := ResolveId(asked.mappings, asked.calls, m.payload.result.callId).value;
    RemapMeans(p, m.payload.result, id, a.tally);
    var r := m.payload.result.(callId := id);
    TakesNext(asked, a, r, a.tally.(text := a.tally.text + PartsText(r.content)));
  }

  lemma {:induction false} AnswerMeans(p: Policy, asked: Asked, ms: seq<Message>, t: Tally)
    requires AnswerAll(p, asked, ms, t).Ok?
    ensures Answered(p, asked, ms, t, AnswerAll(p, asked, ms, t).value)
  {
    if ms == [] {
      assert ToSet(ResultIds([])) == {};
    } else {
      var init, last := ms[..|ms| - 1], ms[|ms| - 1];
      AnswerMeans(p, asked, init, t);
      SplitLast(ms);
      AnsweredStep(p, asked, init, last, t, AnswerAll(p, asked, init, t).value);
    }
  }

  lemma {:induction false} ResultsTextTotal(results: seq<ToolResult>)
    ensures TotalText(AnswerMessages(results)) == ResultsText(results)
  {
    if results != [] {
      var init, last := results[..|results| - 1], results[|results| - 1];
      ResultsTextTotal(init);
      assert AnswerMessages(results) == AnswerMessages(init) + [Message(Tool, Answer(last))];
      TotalTextAppend(AnswerMessages(init), [Message(Tool, Answer(last))]);
    }
  }

  /** When nothing is pending, the results answer exactly the expected calls. */
  lemma AllAnswered(p: Policy, asked: Asked, ms: seq<Message>, t: Tally, a: Answers, ids: seq<Bytes>)
    requires Answered(p, asked, ms, t, a) && a.pending == {} && asked.expected == ToSet(ids) && Distinct(ids)
    ensures AnswersCalls(AnswerMessages(a.results), ids)
  {
    var ms' := AnswerMessages(a.results);
    assert AnswerIds(ms') == ResultIds(a.results);
    assert forall x :: x in asked.expected ==> x in ToSet(ResultIds(a.results)) || x in a.pending;
    assert ToSet(ResultIds(a.results)) == ToSet(ids);
    DistinctCard(ResultIds(a.results));
    DistinctCard(ids);
    forall i | 0 <= i < |ms'| ensures IsAnswer(ms'[i]) {
      assert Remaps(asked, ms[i], a.results[i]);
    }
  }

  // ---------------------------------------------------------------- canonical runs pass unchanged

  function ResultsOf(ms: seq<Message>): (rs: seq<ToolResult>)
    requires forall i :: 0 <= i < |ms| ==> IsAnswer(ms[i])
    ensures |rs| == |ms| && forall i :: 0 <= i < |ms| ==> Message(Tool, Answer(rs[i])) == ms[i]
  {
    if ms == [] then []
    else
      assert IsAnswer(ms[|ms| - 1]);
      ResultsOf(ms[..|ms| - 1]) + [ms[|ms| - 1].payload.result]
  }

  /** The answers after a canonical run. */
  function Replied(expected: set<Bytes>, ms: seq<Message>, t: Tally): Answers
    requires forall i :: 0 <= i < |ms| ==> IsAnswer(ms[i])
  {
    Answers(expected - ToSet(AnswerIds(ms)), ResultsOf(ms), t.(text := t.text + TotalText(ms)))
  }

  /** A result that carries a pending id of a call is taken as it is. */
  lemma AnswerTaken(p: Policy, calls: seq<ToolCall>, expected: set<Bytes>, m: Message, a: Answers)
    requires IsAnswer(m) && AnsweredId(m) in IdsOf(calls) && AnsweredId(m) in a.pending
    requires a.tally.text + MessageText(m) <= p.maxTextBytes
    ensures AnswerStep(p, Asked([], calls, expected), m, a) ==
            Ok(Answers(a.pending - {AnsweredId(m)}, a.results + [m.payload.result],
                       a.tally.(text := a.tally.text + MessageText(m))))
  {
    var id := AnsweredId(m);
    assert ResolveId([], calls, id) == Ok(id);
    RemapMeans(p, m.payload.result, id, a.tally);
    assert m.payload.result.(callId := id) == m.payload.result;
  }

  lemma AnswerIdsNext(ms: seq<Message>, m: Message)
    requires (forall i :: 0 <= i < |ms| ==> IsAnswer(ms[i])) && IsAnswer(m)
    ensures forall i :: 0 <= i < |ms + [m]| ==> IsAnswer((ms + [m])[i])
    ensures AnswerIds(ms + [m]) == AnswerIds(ms) + [AnsweredId(m)]
    ensures ToSet(AnswerIds(ms + [m])) == ToSet(AnswerIds(ms)) + {AnsweredId(m)}
  {
    var all := ms + [m];
    assert all[|ms|] == m && forall i :: 0 <= i < |ms| ==> all[i] == ms[i];
    assert AnswerIds(all) == AnswerIds(ms) + [AnsweredId(m)];
  }

  lemma ResultsNext(ms: seq<Message>, m: Message)
    requires (forall i :: 0 <= i < |ms| ==> IsAnswer(ms[i])) && IsAnswer(m)
    requires forall i :: 0 <= i < |ms + [m]| ==> IsAnswer((ms + [m])[i])
    ensures ResultsOf(ms + [m]) == ResultsOf(ms) + [m.payload.result]
    ensures TotalText(ms + [m]) == TotalText(ms) + MessageText(m)
  {
    TakeDrop(ms, [m]);
    TotalTextAppend(ms, [m]);
    assert TotalText([m]) == MessageText(m);
  }

  /** An id that has not been answered yet is pending. */
  lemma StillPending(ids: seq<Bytes>, id: Bytes, expected: set<Bytes>)
    requires Distinct(ids + [id]) && ToSet(ids + [id]) <= expected
    ensures id in expected && id !in ToSet(ids)
  {
    var all := ids + [id];
    assert all[|ids|] == id;
    forall i | 0 <= i < |ids| ensures ids[i] != id {
      assert all[i] == ids[i];
    }
  }

  /** One more answer in a canonical run. */
  lemma RepliedStep(p: Policy, calls: seq<ToolCall>, ms: seq<Message>, m: Message, t: Tally)
    requires (forall i :: 0 <= i < |ms| ==> IsAnswer(ms[i])) && IsAnswer(m)
    requires Distinct(AnswerIds(ms + [m])) && ToSet(AnswerIds(ms + [m])) <= ToSet(IdsOf(calls))
    requires t.text + TotalText(ms + [m]) <= p.maxTextBytes
    ensures forall i :: 0 <= i < |ms + [m]| ==> IsAnswer((ms + [m])[i])
    ensures var expected := ToSet(IdsOf(calls));
            AnswerStep(p, Asked([], calls, expected), m, Replied(expected, ms, t)) == Ok(Replied(expected, ms + [m], t))
  {
    var expected := ToSet(IdsOf(calls));
    AnswerIdsNext(ms, m);
    ResultsNext(ms, m);
    StillPending(AnswerIds(ms), AnsweredId(m), expected);
    AnswerTaken(p, calls, expected, m, Replied(expected, ms, t));
    assert expected - ToSet(AnswerIds(ms)) - {AnsweredId(m)} == expected - ToSet(AnswerIds(ms + [m]));
  }

  lemma {:induction false} AnswerKeeps(p: Policy, calls: seq<ToolCall>, ms: seq<Message>, t: Tally)
    requires forall i :: 0 <= i < |ms| ==> IsAnswer(ms[i])
    requires Distinct(AnswerIds(ms)) && ToSet(AnswerIds(ms)) <= ToSet(IdsOf(calls))
    requires t.text + TotalText(ms) <= p.maxTextBytes
    ensures var expected := ToSet(IdsOf(calls));
            AnswerAll(p, Asked([], calls, expected), ms, t) == Ok(Replied(expected, ms, t))
  {
    if ms == [] {
      assert ToSet(AnswerIds(ms)) == {};
      assert ToSet(IdsOf(calls)) - {} == ToSet(IdsOf(calls));
    } else {
      var init, last := ms[..|ms| - 1], ms[|ms| - 1];
      SplitLast(ms);
      RepliedStep(p, calls, init, last, t);
      assert AnswerIds(init) == AnswerIds(ms)[..|init|];
      TotalTextAppend(init, [last]);
      AnswerKeeps(p, calls, init, t);
    }
  }
}
