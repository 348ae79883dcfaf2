/** Header layers: who may write which header, and what the final headers are. */
module Headers {
  import opened Prelude
  import opened Layering

  // ---------------------------------------------------------------- data

  datatype Source = Transport | Protocol | Provider | ClientIdentity | Model | DynamicPolicy | Request | Auth {
    function Rank(): nat {
      match this
      case Transport => 0
      case Protocol => 1
      case Provider => 2
      case ClientIdentity => 3
      case Model => 4
      case DynamicPolicy => 5
      case Request => 6
      case Auth => 7
    }
  }

  /** Header names in lower case, as the HTTP library normalizes them. */
  type Name = string

  datatype Operation = SetHeader(name: Name, value: Bytes, sensitive: bool) | RemoveHeader(name: Name)

  datatype Layer = Layer(source: Source, operations: seq<Operation>)

  /** One operation of a layer, with the layer's source. */
  datatype Write = Write(source: Source, op: Operation)

  datatype Step = Step(name: Name, source: Source, present: bool, protected: bool, sensitive: bool)

  datatype Resolved = Resolved(headers: map<Name, Bytes>, steps: seq<Step>)

  datatype Failure =
    | AuthMustBeSensitive(name: Name)
    | MustNotBeSensitive(name: Name)
    | Protected(name: Name)
    | WrongContentType
    | MissingAuth

  /** Header names registered by the authentication scheme and by the provider. */
  datatype Policy = Policy(authHeaders: set<Name>, providerHeaders: set<Name>)

  // ---------------------------------------------------------------- permission

  const CREDENTIALS: set<Name> := {"authorization", "proxy-authorization"}
  const NEGOTIATION: set<Name> := {"content-type", "accept"}
  const IDENTITY: set<Name> := {"user-agent"}
  const CONNECTION: set<Name> := {"host", "content-length", "transfer-encoding", "connection", "cookie", "set-cookie"}

  /** Headers that no ordinary layer may write. */
  const PROTECTED: set<Name> := CREDENTIALS + NEGOTIATION + IDENTITY + CONNECTION

  predicate Extension(name: Name) { |name| >= 2 && name[..2] == "x-" }

  predicate Ordinary(name: Name) { Extension(name) || name == "idempotency-key" }

  predicate Allows(p: Policy, source: Source, name: Name) {
    if name in CREDENTIALS then source.Auth? && name in p.authHeaders
    else if name in NEGOTIATION then source.Protocol?
    else if name in IDENTITY then source.ClientIdentity?
    else if name in CONNECTION then false
    else if name in p.authHeaders then source.Auth?
    else if name in p.providerHeaders then source.Provider?
    else
      match source
      case Transport => false
      case Auth => false
      case Protocol => true
      case Provider => Ordinary(name)
      case ClientIdentity => Extension(name)
      case _ => Ordinary(name)
  }

  predicate IsProtected(p: Policy, name: Name) {
    name in PROTECTED || name in p.authHeaders || name in p.providerHeaders
  }

  function Sensitive(op: Operation): bool { op.SetHeader? && op.sensitive }

  /** The objection to an operation, if any. */
  function Objection(p: Policy, w: Write): Option<Failure> {
    var name, sensitive := w.op.name, Sensitive(w.op);
    if !Allows(p, w.source, name) then Some(Protected(name))
    else if w.source.Auth? && !sensitive then Some(AuthMustBeSensitive(name))
    else if !w.source.Auth? && sensitive && !(w.source.Provider? && name in p.providerHeaders)
    then Some(MustNotBeSensitive(name))
    else None
  }

  // ---------------------------------------------------------------- resolution

  function KeyOf(layer: Layer): Key { Key(layer.source.Rank(), []) }

  function WritesOf(layer: Layer): (ws: seq<Write>)
    ensures |ws| == |layer.operations|
    ensures forall i :: 0 <= i < |ws| ==> ws[i] == Write(layer.source, layer.operations[i])
  {
    seq(|layer.operations|, i requires 0 <= i < |layer.operations| => Write(layer.source, layer.operations[i]))
  }

  function Writes(layers: seq<Layer>): seq<Write> {
    if layers == [] then [] else Writes(layers[..|layers| - 1]) + WritesOf(layers[|layers| - 1])
  }

  function StepOf(p: Policy, w: Write): Step {
    Step(w.op.name, w.source, w.op.SetHeader?, IsProtected(p, w.op.name), Sensitive(w.op))
  }

  function Perform(p: Policy, r: Resolved, w: Write): Resolved {
    var headers := if w.op.SetHeader? then r.headers[w.op.name := w.op.value] else r.headers - {w.op.name};
    Resolved(headers, r.steps + [StepOf(p, w)])
  }

  const EMPTY := Resolved(map[], [])

  function Run(p: Policy, ws: seq<Write>): Result<Resolved, Failure> {
    if ws == [] then Ok(EMPTY)
    else
      var last := ws[|ws| - 1];
      var before := Run(p, ws[..|ws| - 1]);
      if before.Err? then before
      else if Objection(p, last).Some? then Err(Objection(p, last).value)
      else Ok(Perform(p, before.value, last))
  }

  function ResolveLayers(p: Policy, layers: seq<Layer>): Result<Resolved, Failure> {
    Run(p, Writes(Sort(KeyOf, layers)))
  }

  lemma {:induction false} FirstErrorStays(p: Policy, ws: seq<Write>, k: nat)
    requires k <= |ws| && Run(p, ws[..k]).Err?
    ensures Run(p, ws) == Run(p, ws[..k])
  {
    if k < |ws| {
      assert ws[..|ws| - 1][..k] == ws[..k];
      FirstErrorStays(p, ws[..|ws| - 1], k);
    } else {
      assert ws[..k] == ws;
    }
  }

  /** The writes of the first `k` layers and of `j` operations of the next. */
  function Progress(layers: seq<Layer>, k: nat, j: nat): seq<Write>
    requires k < |layers| && j <= |layers[k].operations|
  {
    Writes(layers[..k]) + WritesOf(layers[k])[..j]
  }

  lemma {:induction false} WritesPrefix(layers: seq<Layer>, k: nat)
    requires k <= |layers|
    ensures |Writes(layers[..k])| <= |Writes(layers)| && Writes(layers)[..|Writes(layers[..k])|] == Writes(layers[..k])
  {
    if k < |layers| {
      var init := layers[..|layers| - 1];
      assert init[..k] == layers[..k];
      WritesPrefix(init, k);
      TakeDrop(Writes(init), WritesOf(layers[|layers| - 1]));
      assert Writes(layers)[..|Writes(layers[..k])|] == Writes(init)[..|Writes(layers[..k])|];
    } else {
      assert layers[..k] == layers;
    }
  }

  lemma ProgressPrefix(layers: seq<Layer>, k: nat, j: nat)
    requires k < |layers| && j <= |layers[k].operations|
    ensures var ws := Progress(layers, k, j); |ws| <= |Writes(layers)| && Writes(layers)[..|ws|] == ws
  {
    TakeNext(layers, k);
    WritesPrefix(layers, k + 1);
    var a, b := Writes(layers[..k]), WritesOf(layers[k]);
    assert (a + b)[..|a| + j] == a + b[..j];
    assert Writes(layers)[..|a| + j] == Writes(layers[..k + 1])[..|a| + j];
  }

  lemma ProgressNext(layers: seq<Layer>, k: nat, j: nat)
    requires k < |layers| && j < |layers[k].operations|
    ensures var ws := Progress(layers, k, j + 1);
            ws != [] && ws[..|ws| - 1] == Progress(layers, k, j)
              && ws[|ws| - 1] == Write(layers[k].source, layers[k].operations[j])
  {
  }

  /** What one more operation does to a run. */
  lemma RunNext(p: Policy, layers: seq<Layer>, k: nat, j: nat, before: Resolved)
    requires k < |layers| && j < |layers[k].operations| && Run(p, Progress(layers, k, j)) == Ok(before)
    ensures var w := Write(layers[k].source, layers[k].operations[j]);
            && (Objection(p, w).None? ==> Run(p, Progress(layers, k, j + 1)) == Ok(Perform(p, before, w)))
            && (Objection(p, w).Some? ==> Run(p, Writes(layers)) == Err(Objection(p, w).value))
  {
    ProgressNext(layers, k, j);
    var w := Write(layers[k].source, layers[k].operations[j]);
    if Objection(p, w).Some? {
      ProgressPrefix(layers, k, j + 1);
      FirstErrorStays(p, Writes(layers), |Progress(layers, k, j + 1)|);
    }
  }

  method ApplyOperation(p: Policy, source: Source, op: Operation, before: Resolved)
    returns (r: Result<Resolved, Failure>)
    ensures var w := Write(source, op);
            r == if Objection(p, w).Some? then Err(Objection(p, w).value) else Ok(Perform(p, before, w))
  {
    var objection := Objection(p, Write(source, op));
    if objection.Some? {
      return Err(objection.value);
    }
    if op.SetHeader? {
      r := Ok(Resolved(before.headers[op.name := op.value],
                       before.steps + [Step(op.name, source, true, IsProtected(p, op.name), op.sensitive)]));
    } else {
      r := Ok(Resolved(before.headers - {op.name},
                       before.steps + [Step(op.name, source, false, IsProtected(p, op.name), false)]));
    }
  }

  method ApplyLayer(p: Policy, layers: seq<Layer>, k: nat, resolved: Resolved) returns (r: Result<Resolved, Failure>)
    requires k < |layers| && Run(p, Writes(layers[..k])) == Ok(resolved)
    ensures r.Ok? ==> Run(p, Writes(layers[..k + 1])) == r
    ensures r.Err? ==> Run(p, Writes(layers)) == r
  {
    var current := resolved;
    EmptySides(Writes(layers[..k]));
    for j := 0 to |layers[k].operations|
      invariant Run(p, Progress(layers, k, j)) == Ok(current)
    {
      RunNext(p, layers, k, j, current);
      var next := ApplyOperation(p, layers[k].source, layers[k].operations[j], current);
      if next.Err? {
        return next;
      }
      current := next.value;
    }
    LayerDone(layers, k);
    r := Ok(current);
  }

  lemma LayerDone(layers: seq<Layer>, k: nat)
    requires k < |layers|
    ensures Progress(layers, k, |layers[k].operations|) == Writes(layers[..k + 1])
  {
    TakeNext(layers, k);
    assert WritesOf(layers[k])[..|layers[k].operations|] == WritesOf(layers[k]);
  }

  method ResolveInOrder(p: Policy, layers: seq<Layer>) returns (r: Result<Resolved, Failure>)
    ensures r == ResolveLayers(p, layers)
  {
    var sorted := Sort(KeyOf, layers);
    var resolved := EMPTY;
    for k := 0 to |sorted|
      invariant Run(p, Writes(sorted[..k])) == Ok(resolved)
    {
      var next := ApplyLayer(p, sorted, k, resolved);
      if next.Err? {
        return next;
      }
      resolved := next.value;
    }
    assert sorted[..|sorted|] == sorted;
    r := Ok(resolved);
  }

  // ---------------------------------------------------------------- what the final headers mean

  /** Position of the last write to `name`, or minus one. */
  function LastWrite(ws: seq<Write>, name: Name): (i: int)
    ensures -1 <= i < |ws|
    ensures i >= 0 ==> ws[i].op.name == name
    ensures forall j :: i < j < |ws| ==> ws[j].op.name != name
  {
    if ws == [] then -1
    else if ws[|ws| - 1].op.name == name then |ws| - 1
    else LastWrite(ws[..|ws| - 1], name)
  }

  /** The headers after `ws`: each name has the value of its last write, if that write sets it. */
  predicate LastWriteWins(headers: map<Name, Bytes>, ws: seq<Write>, name: Name) {
    var i := LastWrite(ws, name);
    && (name in headers <==> i >= 0 && ws[i].op.SetHeader?)
    && (name in headers ==> headers[name] == ws[i].op.value)
  }

  lemma LastWriteInit(ws: seq<Write>, name: Name)
    requires ws != [] && ws[|ws| - 1].op.name != name
    ensures var i := LastWrite(ws, name);
            i == LastWrite(ws[..|ws| - 1], name) && (i >= 0 ==> i < |ws| - 1 && ws[i] == ws[..|ws| - 1][i])
  {
  }

  /** Resolution succeeds exactly when no write is objectionable; the first objection is the error otherwise. */
  lemma {:induction false} FirstObjectionFails(p: Policy, ws: seq<Write>)
    ensures Run(p, ws).Ok? <==> forall i :: 0 <= i < |ws| ==> Objection(p, ws[i]).None?
    ensures Run(p, ws).Err? ==>
              exists i :: 0 <= i < |ws| && FirstObjection(p, ws, i) && Run(p, ws) == Err(Objection(p, ws[i]).value)
  {
    if ws != [] {
      var init, last := ws[..|ws| - 1], ws[|ws| - 1];
      FirstObjectionFails(p, init);
      assert forall i :: 0 <= i < |init| ==> init[i] == ws[i];
      if Run(p, init).Err? {
        var i :| 0 <= i < |init| && FirstObjection(p, init, i) && Run(p, init) == Err(Objection(p, init[i]).value);
        assert FirstObjection(p, ws, i);
      } else if Objection(p, last).Some? {
        assert FirstObjection(p, ws, |init|);
      }
    }
  }

  lemma {:induction false} RunMeans(p: Policy, ws: seq<Write>, name: Name)
    requires Run(p, ws).Ok?
    ensures LastWriteWins(Run(p, ws).value.headers, ws, name)
    ensures |Run(p, ws).value.steps| == |ws|
    ensures forall i :: 0 <= i < |ws| ==> Run(p, ws).value.steps[i] == StepOf(p, ws[i])
  {
    if ws != [] {
      RunMeans(p, ws[..|ws| - 1], name);
      if ws[|ws| - 1].op.name != name { LastWriteInit(ws, name); }
    }
  }

  /**
   Every final header has the value of its last write in priority order; a header whose last write
   removes it is absent.
   */
  lemma LastWriteDecides(p: Policy, layers: seq<Layer>, name: Name)
    requires ResolveLayers(p, layers).Ok?
    ensures LastWriteWins(ResolveLayers(p, layers).value.headers, Writes(Sort(KeyOf, layers)), name)
  {
    RunMeans(p, Writes(Sort(KeyOf, layers)), name);
  }

  predicate FirstObjection(p: Policy, ws: seq<Write>, i: nat)
    requires i < |ws|
  {
    Objection(p, ws[i]).Some? && forall j :: 0 <= j < i ==> Objection(p, ws[j]).None?
  }

  // ---------------------------------------------------------------- provenance

  /** Position of the last step that leaves `name` present, or minus one. */
  function LastPresent(steps: seq<Step>, name: Name): (i: int)
    ensures -1 <= i < |steps|
  {
    if steps == [] then -1
    else if steps[|steps| - 1].name == name && steps[|steps| - 1].present then |steps| - 1
    else LastPresent(steps[..|steps| - 1], name)
  }

  method FinalSource(r: Resolved, name: Name) returns (source: Option<Source>)
    ensures source ==
            if name in r.headers && LastPresent(r.steps, name) >= 0
            then Some(r.steps[LastPresent(r.steps, name)].source) else None
  {
    if name !in r.headers {
      return None;
    }
    var i := |r.steps|;
    assert r.steps[..i] == r.steps;
    while i > 0
      invariant 0 <= i <= |r.steps|
      invariant LastPresent(r.steps, name) == LastPresent(r.steps[..i], name)
    {
      i := i - 1;
      TakeNext(r.steps, i);
      if r.steps[i].name == name && r.steps[i].present {
        return Some(r.steps[i].source);
      }
    }
    source := None;
  }

  lemma {:induction false} PresentStepFound(p: Policy, ws: seq<Write>, steps: seq<Step>, name: Name)
    requires |steps| == |ws| && forall i :: 0 <= i < |ws| ==> steps[i] == StepOf(p, ws[i])
    requires LastWrite(ws, name) >= 0 && ws[LastWrite(ws, name)].op.SetHeader?
    ensures LastPresent(steps, name) == LastWrite(ws, name)
  {
    var n := |ws| - 1;
    assert steps[n] == StepOf(p, ws[n]);
    if ws[n].op.name != name {
      LastWriteInit(ws, name);
      assert forall i :: 0 <= i < n ==> steps[..n][i] == StepOf(p, ws[..n][i]);
      PresentStepFound(p, ws[..n], steps[..n], name);
    }
  }

  /** The reported source of a final header is the source of the last write to it, the write whose value it has. */
  lemma FinalSourceIsLastWriter(p: Policy, layers: seq<Layer>, name: Name)
    requires ResolveLayers(p, layers).Ok? && name in ResolveLayers(p, layers).value.headers
    ensures var r := ResolveLayers(p, layers).value;
            var ws := Writes(Sort(KeyOf, layers));
            var i := LastWrite(ws, name);
            && i >= 0 && LastPresent(r.steps, name) == i
            && r.steps[i].source == ws[i].source
            && ws[i].op == SetHeader(name, r.headers[name], r.steps[i].sensitive)
  {
    var ws := Writes(Sort(KeyOf, layers));
    RunMeans(p, ws, name);
    PresentStepFound(p, ws, Run(p, ws).value.steps, name);
  }

  // ---------------------------------------------------------------- order

  predicate DistinctSources(layers: seq<Layer>) {
    forall i, j :: 0 <= i < j < |layers| ==> layers[i].source != layers[j].source
  }

  /** Only the order of layers with the same source matters. */
  lemma LayerOrderIsIrrelevant(p: Policy, a: seq<Layer>, b: seq<Layer>)
    requires SameByKey(KeyOf, a, b)
    ensures ResolveLayers(p, a) == ResolveLayers(p, b)
  {
    SortIgnoresOrder(KeyOf, a, b);
  }

  lemma DistinctSourcesDistinctKeys(layers: seq<Layer>)
    requires DistinctSources(layers)
    ensures DistinctKeys(KeyOf, layers)
  {
  }

  /** With distinct sources, every order gives the same headers, steps or error. */
  lemma DistinctSourcesCommute(p: Policy, a: seq<Layer>, b: seq<Layer>)
    requires multiset(a) == multiset(b) && DistinctSources(a)
    ensures ResolveLayers(p, a) == ResolveLayers(p, b)
  {
    DistinctSourcesDistinctKeys(a);
    DistinctIgnoresOrder(KeyOf, a, b);
    PermutationsSortAlike(KeyOf, a, b);
  }

  // ---------------------------------------------------------------- ownership

  /** A protected header has at most one owner, and the owner is never an override layer or the transport. */
  lemma ProtectedHasOneOwner(p: Policy, name: Name, s: Source, s': Source)
    requires IsProtected(p, name) && Allows(p, s, name) && Allows(p, s', name)
    ensures s == s' && (s.Auth? || s.Protocol? || s.ClientIdentity? || s.Provider?)
  {
  }

  lemma {:induction false} EveryWriteCounts(layers: seq<Layer>, l: Layer, op: Operation)
    requires l in layers && op in l.operations
    ensures Write(l.source, op) in Writes(layers)
  {
    var last := layers[|layers| - 1];
    if l == last {
      var i :| 0 <= i < |l.operations| && l.operations[i] == op;
      assert WritesOf(last)[i] == Write(l.source, op);
    } else {
      EveryWriteCounts(layers[..|layers| - 1], l, op);
    }
  }

  lemma EveryWriteChecked(p: Policy, layers: seq<Layer>, l: Layer, op: Operation)
    requires ResolveLayers(p, layers).Ok? && l in layers && op in l.operations
    ensures Objection(p, Write(l.source, op)).None? && Write(l.source, op) in Writes(Sort(KeyOf, layers))
  {
    var sorted := Sort(KeyOf, layers);
    SortWorks(KeyOf, layers, Key(0, []));
    assert l in multiset(layers);
    EveryWriteCounts(sorted, l, op);
    FirstObjectionFails(p, Writes(sorted));
  }

  /**
   In a successful resolution an authentication header is written by authentication layers alone,
   always as a secret, and so it is present.
   */
  lemma AuthOwnsItsHeaders(p: Policy, layers: seq<Layer>, l: Layer, op: Operation)
    requires ResolveLayers(p, layers).Ok? && l in layers && op in l.operations
    requires op.name in p.authHeaders && op.name !in NEGOTIATION + IDENTITY
    ensures l.source.Auth? && op.SetHeader? && op.sensitive
    ensures op.name in ResolveLayers(p, layers).value.headers
  {
    EveryWriteChecked(p, layers, l, op);
    var ws := Writes(Sort(KeyOf, layers));
    FirstObjectionFails(p, ws);
    RunMeans(p, ws, op.name);
    var i := LastWrite(ws, op.name);
    assert i >= 0;
    assert Objection(p, ws[i]).None?;
  }

  /** Secrets come from authentication layers, or from the provider for headers it registered. */
  lemma SecretsHaveOwners(p: Policy, layers: seq<Layer>, l: Layer, op: Operation)
    requires ResolveLayers(p, layers).Ok? && l in layers && op in l.operations && Sensitive(op)
    ensures (l.source.Auth? && op.name in p.authHeaders) || (l.source.Provider? && op.name in p.providerHeaders)
  {
    EveryWriteChecked(p, layers, l, op);
  }

  // ---------------------------------------------------------------- the public entry point

  /** "application/json" */
  const JSON: Bytes := [97, 112, 112, 108, 105, 99, 97, 116, 105, 111, 110, 47, 106, 115, 111, 110]

  function Compatibility(p: Policy, headers: map<Name, Bytes>): Option<Failure> {
    if "content-type" !in headers || headers["content-type"] != JSON then Some(WrongContentType)
    else if p.authHeaders != {} && !(exists name :: name in p.authHeaders && name in headers) then Some(MissingAuth)
    else None
  }

  function Resolve(p: Policy, layers: seq<Layer>): Result<Resolved, Failure> {
    var r := ResolveLayers(p, layers);
    if r.Err? then r
    else if Compatibility(p, r.value.headers).Some? then Err(Compatibility(p, r.value.headers).value)
    else r
  }

  /** `name` is in the final headers as a secret that an authentication layer wrote last. */
  predicate Authenticated(r: Resolved, name: Name) {
    var i := LastPresent(r.steps, name);
    name in r.headers && i >= 0 && r.steps[i].source.Auth? && r.steps[i].sensitive
  }

  /** JSON content, and a secret from an authentication layer if any authentication header is registered. */
  ghost predicate Authentic(p: Policy, r: Resolved) {
    && "content-type" in r.headers && r.headers["content-type"] == JSON
    && (p.authHeaders != {} ==> exists name :: name in p.authHeaders && Authenticated(r, name))
  }

  lemma AuthWroteIt(p: Policy, layers: seq<Layer>, name: Name)
    requires ResolveLayers(p, layers).Ok? && name in ResolveLayers(p, layers).value.headers
    requires name in p.authHeaders && name !in NEGOTIATION + IDENTITY
    ensures Authenticated(ResolveLayers(p, layers).value, name)
  {
    var ws := Writes(Sort(KeyOf, layers));
    var i := LastWrite(ws, name);
    FinalSourceIsLastWriter(p, layers, name);
    FirstObjectionFails(p, ws);
    RunMeans(p, ws, name);
    assert Objection(p, ws[i]).None?;
  }

  lemma AcceptedIsAuthentic(p: Policy, layers: seq<Layer>)
    requires Resolve(p, layers).Ok? && p.authHeaders !! NEGOTIATION + IDENTITY
    ensures Authentic(p, Resolve(p, layers).value)
  {
    if p.authHeaders != {} {
      var name :| name in p.authHeaders && name in ResolveLayers(p, layers).value.headers;
      AuthWroteIt(p, layers, name);
    }
  }

  /** Content negotiation by the protocol and the client's identity: no authentication layer, no secret. */
  const ANONYMOUS: seq<Layer> := [
    Layer(Protocol, [SetHeader("content-type", JSON, false), SetHeader("accept", JSON, false)]),
    Layer(ClientIdentity, [SetHeader("user-agent", JSON, false)])]

  const ANONYMOUS_WRITES: seq<Write> := [
    Write(Protocol, SetHeader("content-type", JSON, false)),
    Write(Protocol, SetHeader("accept", JSON, false)),
    Write(ClientIdentity, SetHeader("user-agent", JSON, false))]

  lemma AnonymousSorted()
    ensures Sort(KeyOf, ANONYMOUS) == ANONYMOUS
  {
    var first, second := ANONYMOUS[0], ANONYMOUS[1];
    assert ANONYMOUS[..1] == [first] && [first][..0] == [];
    assert Sort(KeyOf, [first]) == [first];
    assert !Below(KeyOf(second), KeyOf(first));
    assert [first] + [second] == ANONYMOUS;
  }

  lemma AnonymousWrites()
    ensures Writes(Sort(KeyOf, ANONYMOUS)) == ANONYMOUS_WRITES
  {
    AnonymousSorted();
    var first, second := ANONYMOUS[0], ANONYMOUS[1];
    assert ANONYMOUS[..1] == [first] && [first][..0] == [];
    assert Writes([first]) == [] + WritesOf(first);
    EmptySides(WritesOf(first));
    assert WritesOf(first) == ANONYMOUS_WRITES[..2];
    assert WritesOf(second) == ANONYMOUS_WRITES[2..];
  }

  lemma AnonymousRuns(p: Policy)
    ensures Run(p, ANONYMOUS_WRITES).Ok?
    ensures forall i :: 0 <= i < |ANONYMOUS_WRITES| ==>
              ANONYMOUS_WRITES[i].op.SetHeader? && ANONYMOUS_WRITES[i].op.value == JSON
                && !ANONYMOUS_WRITES[i].source.Auth?
  {
    FirstObjectionFails(p, ANONYMOUS_WRITES);
  }

  lemma AnonymousHeader(p: Policy, k: nat)
    requires k < |ANONYMOUS_WRITES| && Run(p, ANONYMOUS_WRITES).Ok?
    ensures var name := ANONYMOUS_WRITES[k].op.name; var r := Run(p, ANONYMOUS_WRITES).value;
            name in r.headers && r.headers[name] == JSON
  {
    AnonymousRuns(p);
    RunMeans(p, ANONYMOUS_WRITES, ANONYMOUS_WRITES[k].op.name);
    assert LastWrite(ANONYMOUS_WRITES, ANONYMOUS_WRITES[k].op.name) >= k;
  }

  lemma NobodyAuthenticated(p: Policy, name: Name)
    requires Run(p, ANONYMOUS_WRITES).Ok?
    ensures !Authenticated(Run(p, ANONYMOUS_WRITES).value, name)
  {
    AnonymousRuns(p);
    RunMeans(p, ANONYMOUS_WRITES, name);
  }

  /** Registered as an authentication header, a negotiation or identity header is enough to be let through. */
  lemma AnonymousIsAccepted(p: Policy, name: Name)
    requires name in p.authHeaders && name in NEGOTIATION + IDENTITY
    ensures Resolve(p, ANONYMOUS).Ok? && !Authentic(p, Resolve(p, ANONYMOUS).value)
  {
    AnonymousWrites();
    AnonymousRuns(p);
    AnonymousHeader(p, 0);
    AnonymousHeader(p, 1);
    AnonymousHeader(p, 2);
    assert name in Run(p, ANONYMOUS_WRITES).value.headers;
    forall n ensures !Authenticated(Run(p, ANONYMOUS_WRITES).value, n) {
      NobodyAuthenticated(p, n);
    }
  }

  /**
   Every request that passes the public entry point is authentic, if and only if no negotiation or
   identity header is registered as an authentication header.
   */
  lemma ResolvedRequestIsAuthentic(p: Policy)
    ensures (forall layers :: Resolve(p, layers).Ok? ==> Authentic(p, Resolve(p, layers).value))
       <==> p.authHeaders !! NEGOTIATION + IDENTITY
  {
    if p.authHeaders !! NEGOTIATION + IDENTITY {
      forall layers | Resolve(p, layers).Ok? ensures Authentic(p, Resolve(p, layers).value) {
        AcceptedIsAuthentic(p, layers);
      }
    } else {
      var name :| name in p.authHeaders && name in NEGOTIATION + IDENTITY;
      AnonymousIsAccepted(p, name);
    }
  }
}
