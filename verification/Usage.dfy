/** Token accounting: three-state counters, their merge, and local cost estimates. */
module Usage {
  import opened Prelude

  type u64 = n: int | 0 <= n <= 0xFFFF_FFFF_FFFF_FFFF

  datatype TokenCount = Unknown | Known(tokens: u64)

  datatype Field = Input | Output | Total | CachedInput | CacheWrite | Reasoning

  datatype UsageDetails = UsageDetails(
    input: TokenCount,
    output: TokenCount,
    total: TokenCount,
    cachedInput: TokenCount,
    cacheWrite: TokenCount,
    reasoning: TokenCount)
  {
    function Get(f: Field): TokenCount {
      match f
      case Input => input
      case Output => output
      case Total => total
      case CachedInput => cachedInput
      case CacheWrite => cacheWrite
      case Reasoning => reasoning
    }

    predicate HasAnyKnown() {
      input.Known? || output.Known? || total.Known? || cachedInput.Known? || cacheWrite.Known? || reasoning.Known?
    }

    predicate HasCompleteCore() { input.Known? && output.Known? && total.Known? }
  }

  datatype CostError =
    | Inconsistent(field: Field)
    | Conflict(field: Field)
    | ItemOverflow
    | SubsetsExceedInput
    | TotalOverflow

  // ---------------------------------------------------------------- relationships

  predicate Exceeds(part: TokenCount, whole: TokenCount) { part.Known? && whole.Known? && part.tokens > whole.tokens }

  /** The first relationship the known counters break, if any. */
  function ValidateRelationships(u: UsageDetails): Option<CostError> {
    if u.input.Known? && u.output.Known? && u.total.Known?
       && CheckedAdd(u.input.tokens, u.output.tokens) != Some(u.total.tokens) then Some(Inconsistent(Total))
    else
      var subset :=
        if u.input.Known? && u.cachedInput.Known? && u.cacheWrite.Known? then
          var sum := CheckedAdd(u.cachedInput.tokens, u.cacheWrite.tokens);
          if sum.None? || sum.value > u.input.tokens then Some(Inconsistent(CachedInput)) else None
        else if Exceeds(u.cachedInput, u.input) then Some(Inconsistent(CachedInput))
        else if Exceeds(u.cacheWrite, u.input) then Some(Inconsistent(CacheWrite))
        else None;
      if subset.Some? then subset
      else if Exceeds(u.reasoning, u.output) then Some(Inconsistent(Reasoning))
      else None
  }

  function CheckedAdd(a: u64, b: u64): Option<int> { if a + b > U64_MAX then None else Some(a + b) }

  function OrZero(c: TokenCount): int { if c.Known? then c.tokens else 0 }

  /** What the relationships mean: core counters add up and subsets fit, as far as known. */
  predicate Consistent(u: UsageDetails) {
    && (u.HasCompleteCore() ==> u.input.tokens + u.output.tokens == u.total.tokens)
    && (u.input.Known? ==> OrZero(u.cachedInput) + OrZero(u.cacheWrite) <= u.input.tokens)
    && (u.output.Known? ==> OrZero(u.reasoning) <= u.output.tokens)
  }

  lemma ValidateMeansConsistent(u: UsageDetails)
    ensures ValidateRelationships(u) == None <==> Consistent(u)
  {
  }

  // ---------------------------------------------------------------- merge

  datatype Outcome = Unchanged | EmitP1(details: UsageDetails) | EmitDetailed(details: UsageDetails)

  /** A later snapshot may add a value and must repeat a known one. */
  function MergeTokenCount(previous: TokenCount, next: TokenCount, f: Field): Result<TokenCount, CostError> {
    match (previous, next)
    case (Unknown, _) => Ok(next)
    case (Known(_), Unknown) => Ok(previous)
    case (Known(a), Known(b)) => if a == b then Ok(previous) else Err(Conflict(f))
  }

  function MergeCounts(previous: UsageDetails, next: UsageDetails): Result<UsageDetails, CostError> {
    var input := MergeTokenCount(previous.input, next.input, Input);
    if input.Err? then Err(input.error) else
    var output := MergeTokenCount(previous.output, next.output, Output);
    if output.Err? then Err(output.error) else
    var total := MergeTokenCount(previous.total, next.total, Total);
    if total.Err? then Err(total.error) else
    var cached := MergeTokenCount(previous.cachedInput, next.cachedInput, CachedInput);
    if cached.Err? then Err(cached.error) else
    var write := MergeTokenCount(previous.cacheWrite, next.cacheWrite, CacheWrite);
    if write.Err? then Err(write.error) else
    var reasoning := MergeTokenCount(previous.reasoning, next.reasoning, Reasoning);
    if reasoning.Err? then Err(reasoning.error) else
    Ok(UsageDetails(input.value, output.value, total.value, cached.value, write.value, reasoning.value))
  }

  function Merge(previous: Option<UsageDetails>, next: UsageDetails): Result<(UsageDetails, Outcome), CostError> {
    var invalid := ValidateRelationships(next);
    if invalid.Some? then Err(invalid.value)
    else if previous.None? then
      var outcome :=
        if next.HasCompleteCore() then EmitP1(next) else if next.HasAnyKnown() then EmitDetailed(next) else Unchanged;
      Ok((next, outcome))
    else
      var merged := MergeCounts(previous.value, next);
      if merged.Err? then Err(merged.error)
      else
        var invalid := ValidateRelationships(merged.value);
        if invalid.Some? then Err(invalid.value)
        else if merged.value == previous.value then Ok((merged.value, Unchanged))
        else if !previous.value.HasCompleteCore() && merged.value.HasCompleteCore()
        then Ok((merged.value, EmitP1(merged.value)))
        else Ok((merged.value, EmitDetailed(merged.value)))
  }

  /** What a stream of snapshots leads to: the last details and every outcome. */
  datatype Folded = Folded(details: Option<UsageDetails>, outcomes: seq<Outcome>)

  function Fold(snapshots: seq<UsageDetails>): Result<Folded, CostError> {
    if snapshots == [] then Ok(Folded(None, []))
    else
      var before := Fold(snapshots[..|snapshots| - 1]);
      if before.Err? then before
      else
        var step := Merge(before.value.details, snapshots[|snapshots| - 1]);
        if step.Err? then Err(step.error)
        else Ok(Folded(Some(step.value.0), before.value.outcomes + [step.value.1]))
  }

  // ---------------------------------------------------------------- the join

  /** Known values never contradict each other. */
  ghost predicate Agree(snapshots: seq<UsageDetails>) {
    forall f: Field, a, b :: a in snapshots && b in snapshots && a.Get(f).Known? && b.Get(f).Known? ==>
      a.Get(f) == b.Get(f)
  }

  /** `u` knows exactly what some snapshot knows. */
  ghost predicate IsJoin(u: UsageDetails, snapshots: seq<UsageDetails>) {
    && (forall f: Field, a :: a in snapshots && a.Get(f).Known? ==> u.Get(f) == a.Get(f))
    && (forall f: Field :: u.Get(f).Known? ==> exists a :: a in snapshots && a.Get(f) == u.Get(f))
  }

  lemma SameCounts(a: UsageDetails, b: UsageDetails)
    requires forall f: Field :: a.Get(f) == b.Get(f)
    ensures a == b
  {
    assert a.Get(Input) == b.Get(Input) && a.Get(Output) == b.Get(Output) && a.Get(Total) == b.Get(Total);
    assert a.Get(CachedInput) == b.Get(CachedInput) && a.Get(CacheWrite) == b.Get(CacheWrite)
           && a.Get(Reasoning) == b.Get(Reasoning);
  }

  lemma JoinBelow(u: UsageDetails, v: UsageDetails, snapshots: seq<UsageDetails>, f: Field)
    requires IsJoin(u, snapshots) && IsJoin(v, snapshots)
    ensures u.Get(f).Known? ==> v.Get(f) == u.Get(f)
  {
  }

  lemma JoinIsUnique(u: UsageDetails, v: UsageDetails, snapshots: seq<UsageDetails>)
    requires IsJoin(u, snapshots) && IsJoin(v, snapshots)
    ensures u == v
  {
    forall f: Field ensures u.Get(f) == v.Get(f) {
      JoinBelow(u, v, snapshots, f);
      JoinBelow(v, u, snapshots, f);
    }
    SameCounts(u, v);
  }

  /** A value known to more is consistent only if every part of it is. */
  lemma ForgettingKeepsConsistency(more: UsageDetails, less: UsageDetails)
    requires Consistent(more)
    requires forall f: Field :: less.Get(f).Known? ==> less.Get(f) == more.Get(f)
    ensures Consistent(less)
  {
    assert forall f: Field {:trigger more.Get(f)} :: less.Get(f).Known? ==> less.Get(f) == more.Get(f);
    assert less.Get(Input).Known? ==> less.Get(Input) == more.Get(Input);
    assert less.Get(Output).Known? ==> less.Get(Output) == more.Get(Output);
    assert less.Get(Total).Known? ==> less.Get(Total) == more.Get(Total);
    assert less.Get(CachedInput).Known? ==> less.Get(CachedInput) == more.Get(CachedInput);
    assert less.Get(CacheWrite).Known? ==> less.Get(CacheWrite) == more.Get(CacheWrite);
    assert less.Get(Reasoning).Known? ==> less.Get(Reasoning) == more.Get(Reasoning);
  }

  lemma MergeCountsMeans(p: UsageDetails, n: UsageDetails)
    ensures MergeCounts(p, n).Ok? <==> forall f: Field :: p.Get(f).Known? && n.Get(f).Known? ==> p.Get(f) == n.Get(f)
    ensures MergeCounts(p, n).Ok? ==>
              forall f: Field :: MergeCounts(p, n).value.Get(f) == if p.Get(f).Known? then p.Get(f) else n.Get(f)
  {
    if MergeCounts(p, n).Err? {
      var f := MergeCounts(p, n).error.field;
      assert p.Get(f).Known? && n.Get(f).Known? && p.Get(f) != n.Get(f);
    }
  }

  /** Known values of two snapshots never contradict each other. */
  ghost predicate Compatible(p: UsageDetails, n: UsageDetails) {
    forall f: Field :: p.Get(f).Known? && n.Get(f).Known? ==> p.Get(f) == n.Get(f)
  }

  function Either(a: TokenCount, b: TokenCount): TokenCount { if a.Known? then a else b }

  /** What at least one of two snapshots knows. */
  function Both(p: UsageDetails, n: UsageDetails): UsageDetails {
    UsageDetails(Either(p.input, n.input), Either(p.output, n.output), Either(p.total, n.total),
                 Either(p.cachedInput, n.cachedInput), Either(p.cacheWrite, n.cacheWrite),
                 Either(p.reasoning, n.reasoning))
  }

  lemma MergedCountsAreBoth(p: UsageDetails, n: UsageDetails)
    ensures MergeCounts(p, n).Ok? <==> Compatible(p, n)
    ensures MergeCounts(p, n).Ok? ==> MergeCounts(p, n).value == Both(p, n)
  {
    MergeCountsMeans(p, n);
  }

  /** A snapshot is merged exactly when nothing contradicts and both it and what is then known are consistent. */
  lemma MergeMeans(p: UsageDetails, n: UsageDetails)
    ensures Merge(Some(p), n).Ok? <==> Consistent(n) && Compatible(p, n) && Consistent(Both(p, n))
    ensures Merge(Some(p), n).Ok? ==> Merge(Some(p), n).value.0 == Both(p, n)
    ensures Merge(None, n).Ok? <==> Consistent(n)
    ensures Merge(None, n).Ok? ==> Merge(None, n).value.0 == n
  {
    MergedCountsAreBoth(p, n);
    ValidateMeansConsistent(n);
    ValidateMeansConsistent(Both(p, n));
  }

  /** Merging a snapshot into a join joins it; it is possible exactly when nothing contradicts. */
  lemma JoinStep(p: UsageDetails, n: UsageDetails, init: seq<UsageDetails>)
    requires IsJoin(p, init) && Agree(init)
    ensures MergeCounts(p, n).Ok? <==> Agree(init + [n])
    ensures MergeCounts(p, n).Ok? ==> IsJoin(MergeCounts(p, n).value, init + [n])
  {
    MergeCountsMeans(p, n);
    var all := init + [n];
    assert forall a :: a in all <==> a in init || a == n;
    if MergeCounts(p, n).Ok? {
      var m := MergeCounts(p, n).value;
      assert forall f: Field, a :: a in init && a.Get(f).Known? ==> a.Get(f) == p.Get(f);
      forall f: Field | m.Get(f).Known? ensures exists a :: a in all && a.Get(f) == m.Get(f) {
        if p.Get(f).Known? {
          var a :| a in init && a.Get(f) == p.Get(f);
          assert a in all;
        } else {
          assert n in all;
        }
      }
    } else {
      var f: Field :| p.Get(f).Known? && n.Get(f).Known? && p.Get(f) != n.Get(f);
      var a :| a in init && a.Get(f) == p.Get(f);
      assert a in all && n in all;
    }
  }

  /** Some join of the snapshots satisfies the relationships. */
  ghost predicate Joinable(snapshots: seq<UsageDetails>) {
    Agree(snapshots) && exists u :: IsJoin(u, snapshots) && Consistent(u)
  }

  lemma JoinableParts(init: seq<UsageDetails>, n: UsageDetails)
    requires Joinable(init + [n])
    ensures Consistent(n)
    ensures forall p :: IsJoin(p, init) ==> Consistent(p)
    ensures Agree(init)
  {
    var all := init + [n];
    assert forall a :: a in all <==> a in init || a == n;
    var u :| IsJoin(u, all) && Consistent(u);
    ForgettingKeepsConsistency(u, n);
    forall p | IsJoin(p, init) ensures Consistent(p) {
      forall f: Field ensures p.Get(f).Known? ==> p.Get(f) == u.Get(f) {
      }
      ForgettingKeepsConsistency(u, p);
    }
  }

  lemma {:induction false} JoinExists(snapshots: seq<UsageDetails>) returns (u: UsageDetails)
    requires Agree(snapshots)
    ensures IsJoin(u, snapshots)
  {
    if snapshots == [] {
      u := UsageDetails(Unknown, Unknown, Unknown, Unknown, Unknown, Unknown);
    } else {
      var init, n := snapshots[..|snapshots| - 1], snapshots[|snapshots| - 1];
      SplitLast(snapshots);
      assert forall a :: a in init ==> a in snapshots;
      u := JoinExists(init);
      JoinStep(u, n, init);
      u := MergeCounts(u, n).value;
    }
  }

  lemma JoinableInit(init: seq<UsageDetails>, n: UsageDetails)
    requires Joinable(init + [n])
    ensures Joinable(init)
  {
    JoinableParts(init, n);
    var p := JoinExists(init);
    assert Consistent(p);
  }

  /** The fold succeeds exactly on joinable snapshots, and yields their join. */
  lemma {:induction false} FoldMeans(snapshots: seq<UsageDetails>)
    requires snapshots != []
    ensures Fold(snapshots).Ok? <==> Joinable(snapshots)
    ensures Fold(snapshots).Ok? ==>
              && Fold(snapshots).value.details.Some?
              && IsJoin(Fold(snapshots).value.details.value, snapshots)
              && Consistent(Fold(snapshots).value.details.value)
  {
    var init, n := snapshots[..|snapshots| - 1], snapshots[|snapshots| - 1];
    SplitLast(snapshots);
    if init == [] {
      FoldOne(n);
      EmptySides([n]);
    } else {
      FoldMeans(init);
      if Joinable(snapshots) { JoinableInit(init, n); }
      if Joinable(init) { FoldStep(init, n); }
    }
  }

  lemma FoldFirst(n: UsageDetails)
    ensures Fold([n]).Ok? <==> Consistent(n)
    ensures Fold([n]).Ok? ==> Fold([n]).value.details == Some(n)
  {
    assert [n][..0] == [];
    ValidateMeansConsistent(n);
  }

  lemma JoinOfOne(n: UsageDetails)
    ensures IsJoin(n, [n]) && (Joinable([n]) <==> Consistent(n))
  {
    assert IsJoin(n, [n]);
    if Joinable([n]) {
      var u :| IsJoin(u, [n]) && Consistent(u);
      ForgettingKeepsConsistency(u, n);
    }
  }

  lemma FoldOne(n: UsageDetails)
    ensures Fold([n]).Ok? <==> Joinable([n])
    ensures Fold([n]).Ok? ==> Fold([n]).value.details == Some(n) && IsJoin(n, [n]) && Consistent(n)
  {
    FoldFirst(n);
    JoinOfOne(n);
  }

  lemma FoldStep(init: seq<UsageDetails>, n: UsageDetails)
    requires Fold(init).Ok? && Fold(init).value.details.Some?
    requires IsJoin(Fold(init).value.details.value, init) && Joinable(init)
    ensures var all := init + [n];
            && (Fold(all).Ok? <==> Joinable(all))
            && (Fold(all).Ok? ==>
                  && Fold(all).value.details.Some?
                  && IsJoin(Fold(all).value.details.value, all) && Consistent(Fold(all).value.details.value))
  {
    var all := init + [n];
    TakeDrop(init, [n]);
    var p := Fold(init).value.details.value;
    MergeMeans(p, n);
    MergedCountsAreBoth(p, n);
    JoinStep(p, n, init);
    if Joinable(all) {
      JoinableParts(init, n);
      var u :| IsJoin(u, all) && Consistent(u);
      JoinIsUnique(u, MergeCounts(p, n).value, all);
    }
  }

  /** Neither success nor the resulting details depend on the order of the snapshots. */
  lemma OrderIsIrrelevant(a: seq<UsageDetails>, b: seq<UsageDetails>)
    requires a != [] && b != []
    requires forall u :: u in a <==> u in b
    ensures Fold(a).Ok? == Fold(b).Ok?
    ensures Fold(a).Ok? ==> Fold(a).value.details == Fold(b).value.details
  {
    FoldMeans(a);
    FoldMeans(b);
    assert forall u :: IsJoin(u, a) <==> IsJoin(u, b);
    assert Agree(a) <==> Agree(b);
    if Fold(a).Ok? {
      JoinIsUnique(Fold(a).value.details.value, Fold(b).value.details.value, a);
    }
  }

  // ---------------------------------------------------------------- outcomes

  function KnownCount(u: UsageDetails): nat {
    (if u.input.Known? then 1 else 0) + (if u.output.Known? then 1 else 0) + (if u.total.Known? then 1 else 0)
    + (if u.cachedInput.Known? then 1 else 0) + (if u.cacheWrite.Known? then 1 else 0)
      + (if u.reasoning.Known? then 1 else 0)
  }

  function P1Count(outcomes: seq<Outcome>): nat {
    if outcomes == [] then 0
    else P1Count(outcomes[..|outcomes| - 1]) + if outcomes[|outcomes| - 1].EmitP1? then 1 else 0
  }

  function EmitCount(outcomes: seq<Outcome>): nat {
    if outcomes == [] then 0
    else EmitCount(outcomes[..|outcomes| - 1]) + if outcomes[|outcomes| - 1].Unchanged? then 0 else 1
  }

  lemma MergeOutcome(p: UsageDetails, n: UsageDetails)
    requires Merge(Some(p), n).Ok?
    ensures var (m, o) := Merge(Some(p), n).value;
            && (o.EmitP1? <==> !p.HasCompleteCore() && m.HasCompleteCore())
            && (p.HasCompleteCore() ==> m.HasCompleteCore())
            && KnownCount(m) >= KnownCount(p) + if o.Unchanged? then 0 else 1
  {
    MergeMeans(p, n);
    MergeCountsMeans(p, n);
    var m := MergeCounts(p, n).value;
    if m != p {
      if forall f: Field :: m.Get(f) == p.Get(f) { SameCounts(m, p); }
    }
  }

  /** The core report is emitted once, when the core is complete; every emission adds knowledge. */
  lemma {:induction false} OutcomesBounded(snapshots: seq<UsageDetails>)
    requires snapshots != [] && Fold(snapshots).Ok?
    ensures var r := Fold(snapshots).value;
            && r.details.Some?
            && P1Count(r.outcomes) == (if r.details.value.HasCompleteCore() then 1 else 0)
            && EmitCount(r.outcomes) <= KnownCount(r.details.value) <= 6
  {
    var init, n := snapshots[..|snapshots| - 1], snapshots[|snapshots| - 1];
    var before, after := Fold(init).value, Fold(snapshots).value;
    TakeDrop(before.outcomes, [after.outcomes[|after.outcomes| - 1]]);
    if init != [] {
      OutcomesBounded(init);
      MergeOutcome(before.details.value, n);
    }
  }
}
