/** Layered provider configuration: which layers are admitted, and which layer decides a field. */
module ConfigLayers {
  import opened Prelude
  import opened Layering

  // ---------------------------------------------------------------- data

  datatype Version = Version(major: nat, minor: nat)

  const CURRENT := Version(1, 1)

  datatype SourceKind =
    | ProtocolDefault | BuiltInProfile | UserConfig
    | EnvironmentSecretReference | ProgrammaticOverride | PerRequestSafeOverride
  {
    function Precedence(): nat {
      match this
      case ProtocolDefault => 0
      case BuiltInProfile => 1
      case UserConfig => 2
      case EnvironmentSecretReference => 3
      case ProgrammaticOverride => 4
      case PerRequestSafeOverride => 5
    }
  }

  datatype Location =
    | BuiltIn
    | File(display: Bytes)
    | EnvironmentVariable(name: Bytes)
    | Programmatic(component: Bytes)
    | PerRequest

  datatype Source = Source(kind: SourceKind, id: Bytes, location: Location)

  datatype Setting<+T> = Unset | Set(value: T) | Remove

  datatype Provenance = Provenance(source: Source, removed: bool)

  datatype Field<+T> = Field(value: Option<T>, provenance: Option<Provenance>)

  /** A named environment variable that holds a secret. */
  datatype SecretReference = SecretReference(name: Bytes)

  /** Endpoint, audience and identity are carried, never looked into. */
  datatype Layer = Layer(
    version: Version,
    source: Source,
    providerId: Setting<Bytes>,
    protocolId: Setting<Bytes>,
    endpoint: Setting<Bytes>,
    credentialAudience: Setting<Bytes>,
    credential: Setting<SecretReference>,
    clientIdentity: Setting<Bytes>,
    maxErrorBytes: Setting<nat>)

  datatype Snapshot = Snapshot(
    version: Version,
    providerId: Field<Bytes>,
    protocolId: Field<Bytes>,
    endpoint: Field<Bytes>,
    credentialAudience: Field<Bytes>,
    credential: Field<SecretReference>,
    clientIdentity: Field<Bytes>,
    maxErrorBytes: Field<nat>)

  datatype Failure = InvalidVersion | ForbiddenOverride | NameMismatch | DuplicateSource | InvalidSnapshot(code: nat)

  function KeyOf(layer: Layer): Key { Key(layer.source.kind.Precedence(), layer.source.id) }

  // ---------------------------------------------------------------- admission

  predicate ChangesMoreThanCredential(l: Layer) {
    !(l.providerId.Unset? && l.protocolId.Unset? && l.endpoint.Unset? && l.credentialAudience.Unset?
      && l.clientIdentity.Unset? && l.maxErrorBytes.Unset?)
  }

  /** What a source may change: an environment layer only its own secret, a per-request layer nothing. */
  function Permission(l: Layer): Option<Failure> {
    match l.source.kind
    case EnvironmentSecretReference =>
      if ChangesMoreThanCredential(l) then Some(ForbiddenOverride)
      else if !l.credential.Set? || !l.source.location.EnvironmentVariable? then Some(ForbiddenOverride)
      else if l.credential.value.name != l.source.location.name then Some(NameMismatch)
      else None
    case PerRequestSafeOverride =>
      if ChangesMoreThanCredential(l) || !l.credential.Unset? then Some(ForbiddenOverride) else None
    case _ => None
  }

  function Admission(l: Layer): Option<Failure> {
    if l.version.major != CURRENT.major then Some(InvalidVersion) else Permission(l)
  }

  /** The first objection to the layers, in the order they were given. */
  function Objection(layers: seq<Layer>): Option<Failure> {
    if layers == [] then None
    else
      var n := |layers| - 1;
      var before := Objection(layers[..n]);
      if before.Some? then before
      else if Admission(layers[n]).Some? then Admission(layers[n])
      else if exists i :: 0 <= i < n && KeyOf(layers[i]) == KeyOf(layers[n]) then Some(DuplicateSource)
      else None
  }

  predicate Acceptable(layers: seq<Layer>) {
    (forall i :: 0 <= i < |layers| ==> Admission(layers[i]).None?) && DistinctKeys(KeyOf, layers)
  }

  lemma {:induction false} NoObjection(layers: seq<Layer>)
    ensures Objection(layers).None? <==> Acceptable(layers)
  {
    if layers != [] {
      var n := |layers| - 1;
      NoObjection(layers[..n]);
      if Acceptable(layers) {
        assert forall i :: 0 <= i < n ==> layers[..n][i] == layers[i];
        assert Acceptable(layers[..n]);
      }
    }
  }

  // ---------------------------------------------------------------- fields

  function Written<T>(setting: Setting<T>, source: Source): Field<T>
    requires !setting.Unset?
  {
    Field(if setting.Set? then Some(setting.value) else None, Some(Provenance(source, setting.Remove?)))
  }

  function Apply<T>(f: Field<T>, setting: Setting<T>, source: Source): Field<T> {
    if setting.Unset? then f else Written(setting, source)
  }

  function Fold<T>(f: Field<T>, layers: seq<Layer>, get: Layer -> Setting<T>): Field<T> {
    if layers == [] then f
    else
      var last := layers[|layers| - 1];
      Apply(Fold(f, layers[..|layers| - 1], get), get(last), last.source)
  }

  /** The decision on a field: the greatest layer that says something, otherwise what was there before. */
  ghost predicate Decides<T(!new)>(f: Field<T>, layers: seq<Layer>, get: Layer -> Setting<T>, r: Field<T>) {
    if forall l :: l in layers ==> get(l).Unset? then r == f
    else
      exists l ::
        && l in layers && !get(l).Unset? && r == Written(get(l), l.source)
        && forall m :: m in layers && !get(m).Unset? && m != l ==> Below(KeyOf(m), KeyOf(l))
  }

  lemma SilentLayer<T(!new)>(f: Field<T>, layers: seq<Layer>, last: Layer, get: Layer -> Setting<T>, r: Field<T>)
    requires Decides(f, layers, get, r) && get(last).Unset?
    ensures Decides(f, layers + [last], get, r)
  {
    assert forall l :: l in layers + [last] && !get(l).Unset? <==> l in layers && !get(l).Unset?;
  }

  lemma SpeakingLayer<T(!new)>(f: Field<T>, layers: seq<Layer>, last: Layer, get: Layer -> Setting<T>)
    requires !get(last).Unset? && forall l :: l in layers ==> Below(KeyOf(l), KeyOf(last))
    ensures Decides(f, layers + [last], get, Written(get(last), last.source))
  {
    assert last in layers + [last];
  }

  lemma {:induction false} LastWriteDecides<T(!new)>(f: Field<T>, layers: seq<Layer>, get: Layer -> Setting<T>)
    requires Sorted(KeyOf, layers) && DistinctKeys(KeyOf, layers)
    ensures Decides(f, layers, get, Fold(f, layers, get))
  {
    if layers != [] {
      var init, last := layers[..|layers| - 1], layers[|layers| - 1];
      SortedInit(KeyOf, layers);
      assert forall i :: 0 <= i < |init| ==> init[i] == layers[i];
      LastWriteDecides(f, init, get);
      SplitLast(layers);
      if get(last).Unset? {
        SilentLayer(f, init, last, get, Fold(f, init, get));
      } else {
        forall m | m in init ensures Below(KeyOf(m), KeyOf(last)) {
          var i :| 0 <= i < |init| && init[i] == m;
          Total(KeyOf(layers[i]), KeyOf(last));
        }
        SpeakingLayer(f, init, last, get);
      }
    }
  }

  /** Sorting only matters for finding the greatest layer. */
  lemma MergedFieldDecides<T(!new)>(f: Field<T>, layers: seq<Layer>, get: Layer -> Setting<T>)
    requires DistinctKeys(KeyOf, layers)
    ensures Decides(f, layers, get, Fold(f, Sort(KeyOf, layers), get))
  {
    var sorted := Sort(KeyOf, layers);
    SortWorks(KeyOf, layers, Key(0, []));
    DistinctIgnoresOrder(KeyOf, layers, sorted);
    LastWriteDecides(f, sorted, get);
    assert forall l :: l in layers <==> l in sorted by {
      assert forall l :: l in layers <==> l in multiset(layers);
      assert forall l :: l in sorted <==> l in multiset(sorted);
    }
  }

  // ---------------------------------------------------------------- snapshots

  function GetProviderId(l: Layer): Setting<Bytes> { l.providerId }
  function GetProtocolId(l: Layer): Setting<Bytes> { l.protocolId }
  function GetEndpoint(l: Layer): Setting<Bytes> { l.endpoint }
  function GetAudience(l: Layer): Setting<Bytes> { l.credentialAudience }
  function GetCredential(l: Layer): Setting<SecretReference> { l.credential }
  function GetIdentity(l: Layer): Setting<Bytes> { l.clientIdentity }
  function GetMaxErrorBytes(l: Layer): Setting<nat> { l.maxErrorBytes }

  function ApplyLayer(s: Snapshot, l: Layer): Snapshot {
    Snapshot(
      Version(s.version.major, Max(s.version.minor, l.version.minor)),
      Apply(s.providerId, l.providerId, l.source),
      Apply(s.protocolId, l.protocolId, l.source),
      Apply(s.endpoint, l.endpoint, l.source),
      Apply(s.credentialAudience, l.credentialAudience, l.source),
      Apply(s.credential, l.credential, l.source),
      Apply(s.clientIdentity, l.clientIdentity, l.source),
      Apply(s.maxErrorBytes, l.maxErrorBytes, l.source))
  }

  function ApplyAll(s: Snapshot, layers: seq<Layer>): Snapshot {
    if layers == [] then s else ApplyLayer(ApplyAll(s, layers[..|layers| - 1]), layers[|layers| - 1])
  }

  lemma {:induction false} FieldByField(s: Snapshot, layers: seq<Layer>)
    ensures var r := ApplyAll(s, layers);
            && r.providerId == Fold(s.providerId, layers, GetProviderId)
            && r.protocolId == Fold(s.protocolId, layers, GetProtocolId)
            && r.endpoint == Fold(s.endpoint, layers, GetEndpoint)
            && r.credentialAudience == Fold(s.credentialAudience, layers, GetAudience)
            && r.credential == Fold(s.credential, layers, GetCredential)
            && r.clientIdentity == Fold(s.clientIdentity, layers, GetIdentity)
            && r.maxErrorBytes == Fold(s.maxErrorBytes, layers, GetMaxErrorBytes)
  {
    if layers != [] { FieldByField(s, layers[..|layers| - 1]); }
  }

  /** The minor version is the largest one seen. */
  predicate LargestMinor(s: Snapshot, layers: seq<Layer>, r: Version) {
    && r.major == s.version.major && s.version.minor <= r.minor
    && (forall i :: 0 <= i < |layers| ==> layers[i].version.minor <= r.minor)
    && (r.minor == s.version.minor || exists i :: 0 <= i < |layers| && layers[i].version.minor == r.minor)
  }

  lemma {:induction false} VersionIsLargest(s: Snapshot, layers: seq<Layer>)
    ensures LargestMinor(s, layers, ApplyAll(s, layers).version)
  {
    if layers != [] {
      var n := |layers| - 1;
      VersionIsLargest(s, layers[..n]);
      assert forall i :: 0 <= i < n ==> layers[..n][i] == layers[i];
      var v := ApplyAll(s, layers[..n]).version;
      if v.minor != s.version.minor {
        var i :| 0 <= i < n && layers[..n][i].version.minor == v.minor;
        assert layers[i].version.minor == v.minor;
      }
    }
  }

  lemma {:induction false} ApplyConcat(s: Snapshot, a: seq<Layer>, b: seq<Layer>)
    ensures ApplyAll(s, a + b) == ApplyAll(ApplyAll(s, a), b)
  {
    if b == [] {
      EmptySides(a);
    } else {
      RegroupLast(a, b);
      ApplyConcat(s, a, b[..|b| - 1]);
    }
  }

  // ---------------------------------------------------------------- merging

  /** Checks on whole snapshots: `None` when the snapshot is valid. */
  type Validator = Snapshot -> Option<nat>

  function Merge(base: Snapshot, layers: seq<Layer>, validate: Validator): Result<Snapshot, Failure> {
    var objection := Objection(layers);
    if objection.Some? then Err(objection.value) else Validated(ApplyAll(base, Sort(KeyOf, layers)), validate)
  }

  function Validated(s: Snapshot, validate: Validator): Result<Snapshot, Failure> {
    if validate(s).Some? then Err(InvalidSnapshot(validate(s).value)) else Ok(s)
  }

  method CheckLayers(layers: seq<Layer>) returns (objection: Option<Failure>)
    ensures objection == Objection(layers)
  {
    var keys: set<Key> := {};
    for k := 0 to |layers|
      invariant Objection(layers[..k]).None?
      invariant keys == set i | 0 <= i < k :: KeyOf(layers[i])
    {
      TakeNext(layers, k);
      FirstObjection(layers, k + 1);
      assert forall i :: 0 <= i < k ==> layers[..k + 1][i] == layers[i];
      if layers[k].version.major != CURRENT.major {
        return Some(InvalidVersion);
      }
      var permission := Permission(layers[k]);
      if permission.Some? {
        return permission;
      }
      if KeyOf(layers[k]) in keys {
        var i :| 0 <= i < k && KeyOf(layers[i]) == KeyOf(layers[k]);
        return Some(DuplicateSource);
      }
      keys := keys + {KeyOf(layers[k])};
    }
    assert layers[..|layers|] == layers;
    objection := None;
  }

  lemma {:induction false} FirstObjection(layers: seq<Layer>, k: nat)
    requires k <= |layers|
    ensures Objection(layers[..k]).Some? ==> Objection(layers) == Objection(layers[..k])
  {
    if k < |layers| {
      var n := |layers| - 1;
      FirstObjection(layers[..n], k);
      assert layers[..n][..k] == layers[..k];
    } else {
      assert layers[..k] == layers;
    }
  }

  method MergeLayers(base: Snapshot, layers: seq<Layer>, validate: Validator) returns (r: Result<Snapshot, Failure>)
    ensures r == Merge(base, layers, validate)
  {
    var objection := CheckLayers(layers);
    if objection.Some? {
      return Err(objection.value);
    }
    var sorted := Sort(KeyOf, layers);
    var snapshot := base;
    for k := 0 to |sorted|
      invariant snapshot == ApplyAll(base, sorted[..k])
    {
      TakeNext(sorted, k);
      snapshot := ApplyLayer(snapshot, sorted[k]);
    }
    assert sorted[..|sorted|] == sorted;
    var invalid := validate(snapshot);
    if invalid.Some? {
      return Err(InvalidSnapshot(invalid.value));
    }
    r := Ok(snapshot);
  }

  // ---------------------------------------------------------------- what merging means

  /** Every field of the result is decided by the greatest layer that mentions it. */
  ghost predicate Overrides(base: Snapshot, layers: seq<Layer>, r: Snapshot) {
    && LargestMinor(base, layers, r.version)
    && Decides(base.providerId, layers, GetProviderId, r.providerId)
    && Decides(base.protocolId, layers, GetProtocolId, r.protocolId)
    && Decides(base.endpoint, layers, GetEndpoint, r.endpoint)
    && Decides(base.credentialAudience, layers, GetAudience, r.credentialAudience)
    && Decides(base.credential, layers, GetCredential, r.credential)
    && Decides(base.clientIdentity, layers, GetIdentity, r.clientIdentity)
    && Decides(base.maxErrorBytes, layers, GetMaxErrorBytes, r.maxErrorBytes)
  }

  lemma LargestMinorSorted(base: Snapshot, layers: seq<Layer>, r: Version)
    requires LargestMinor(base, Sort(KeyOf, layers), r)
    ensures LargestMinor(base, layers, r)
  {
    var sorted := Sort(KeyOf, layers);
    SortWorks(KeyOf, layers, Key(0, []));
    assert forall l :: l in layers <==> l in multiset(layers);
    assert forall l :: l in sorted <==> l in multiset(sorted);
    forall i | 0 <= i < |layers| ensures layers[i].version.minor <= r.minor {
      assert layers[i] in sorted;
    }
    if r.minor != base.version.minor {
      var i :| 0 <= i < |sorted| && sorted[i].version.minor == r.minor;
      assert sorted[i] in layers;
    }
  }

  /**
   Merging succeeds exactly for admitted layers with distinct sources whose outcome is valid, and then
   the greatest layer wins.
   */
  lemma HighestLayerWins(base: Snapshot, layers: seq<Layer>, validate: Validator)
    ensures Merge(base, layers, validate).Ok? <==>
              Acceptable(layers) && validate(ApplyAll(base, Sort(KeyOf, layers))).None?
    ensures Merge(base, layers, validate).Ok? ==> Overrides(base, layers, Merge(base, layers, validate).value)
  {
    NoObjection(layers);
    if Acceptable(layers) {
      var sorted := Sort(KeyOf, layers);
      FieldByField(base, sorted);
      VersionIsLargest(base, sorted);
      LargestMinorSorted(base, layers, ApplyAll(base, sorted).version);
      MergedFieldDecides(base.providerId, layers, GetProviderId);
      MergedFieldDecides(base.protocolId, layers, GetProtocolId);
      MergedFieldDecides(base.endpoint, layers, GetEndpoint);
      MergedFieldDecides(base.credentialAudience, layers, GetAudience);
      MergedFieldDecides(base.credential, layers, GetCredential);
      MergedFieldDecides(base.clientIdentity, layers, GetIdentity);
      MergedFieldDecides(base.maxErrorBytes, layers, GetMaxErrorBytes);
    }
  }

  lemma AcceptableIgnoresOrder(a: seq<Layer>, b: seq<Layer>)
    requires multiset(a) == multiset(b) && Acceptable(a)
    ensures Acceptable(b)
  {
    DistinctIgnoresOrder(KeyOf, a, b);
    forall i | 0 <= i < |b| ensures Admission(b[i]).None? {
      assert b[i] in multiset(a);
    }
  }

  /** The order in which layers are given decides neither whether they merge nor what they merge to. */
  lemma MergeIgnoresOrder(base: Snapshot, a: seq<Layer>, b: seq<Layer>, validate: Validator)
    requires multiset(a) == multiset(b)
    ensures Merge(base, a, validate).Ok? <==> Merge(base, b, validate).Ok?
    ensures Merge(base, a, validate).Ok? ==> Merge(base, a, validate) == Merge(base, b, validate)
  {
    NoObjection(a);
    NoObjection(b);
    if Acceptable(a) {
      AcceptableIgnoresOrder(a, b);
      PermutationsSortAlike(KeyOf, a, b);
    } else if Acceptable(b) {
      AcceptableIgnoresOrder(b, a);
    }
  }

  lemma {:induction false} ObjectionConcat(a: seq<Layer>, b: seq<Layer>)
    requires Objection(a).None? && AllBelow(KeyOf, a, b)
    ensures Objection(a + b) == Objection(b)
  {
    if b == [] {
      EmptySides(a);
    } else {
      var n := |b| - 1;
      ObjectionConcat(a, b[..n]);
      RegroupLast(a, b);
      LateDuplicate(a, b);
    }
  }

  lemma LateDuplicate(a: seq<Layer>, b: seq<Layer>)
    requires b != [] && AllBelow(KeyOf, a, b)
    ensures var all := a + b;
            var last := KeyOf(b[|b| - 1]);
            (exists i :: 0 <= i < |all| - 1 && KeyOf(all[i]) == last) <==>
              (exists i :: 0 <= i < |b| - 1 && KeyOf(b[i]) == last)
  {
    var all, last := a + b, KeyOf(b[|b| - 1]);
    if i :| 0 <= i < |all| - 1 && KeyOf(all[i]) == last {
      Total(last, last);
      assert i >= |a|;
      assert all[i] == b[i - |a|];
    }
    if i :| 0 <= i < |b| - 1 && KeyOf(b[i]) == last {
      assert all[|a| + i] == b[i];
    }
  }

  /** Merging low layers first and high layers later is merging them all at once. */
  lemma MergeInStages(base: Snapshot, low: seq<Layer>, high: seq<Layer>, validate: Validator)
    requires AllBelow(KeyOf, low, high) && Merge(base, low, validate).Ok?
    ensures Merge(base, low + high, validate) == Merge(Merge(base, low, validate).value, high, validate)
  {
    ObjectionConcat(low, high);
    SortConcat(KeyOf, low, high);
    ApplyConcat(base, Sort(KeyOf, low), Sort(KeyOf, high));
  }

  // ---------------------------------------------------------------- restricted sources

  /** Unchanged, or decided by a source that may change any field. */
  predicate Unrestricted<T(==)>(before: Field<T>, after: Field<T>) {
    after == before ||
    (after.provenance.Some? && !after.provenance.value.source.kind.EnvironmentSecretReference?
                            && !after.provenance.value.source.kind.PerRequestSafeOverride?)
  }

  /** Unchanged, or set by an environment source to its own variable, or decided by an unrestricted source. */
  predicate OwnSecret(before: Field<SecretReference>, after: Field<SecretReference>) {
    Unrestricted(before, after) ||
    (after.provenance.Some?
     && after.provenance.value.source.kind.EnvironmentSecretReference?
     && after.provenance.value.source.location.EnvironmentVariable?
     && after.value == Some(SecretReference(after.provenance.value.source.location.name)))
  }

  /** Only unrestricted sources are admitted with a change of this field. */
  ghost predicate Guarded<T>(get: Layer -> Setting<T>) {
    forall l: Layer :: Admission(l).None? && !get(l).Unset? ==>
      !l.source.kind.EnvironmentSecretReference? && !l.source.kind.PerRequestSafeOverride?
  }

  lemma GuardedField<T(!new)>(f: Field<T>, layers: seq<Layer>, get: Layer -> Setting<T>, r: Field<T>)
    requires Decides(f, layers, get, r) && Acceptable(layers) && Guarded(get)
    ensures Unrestricted(f, r)
  {
    if !(forall l :: l in layers ==> get(l).Unset?) {
      var l :| l in layers && !get(l).Unset? && r == Written(get(l), l.source);
      assert Admission(l).None?;
    }
  }

  lemma SecretField(f: Field<SecretReference>, layers: seq<Layer>, r: Field<SecretReference>)
    requires Decides(f, layers, GetCredential, r) && Acceptable(layers)
    ensures OwnSecret(f, r)
  {
    if !(forall l :: l in layers ==> GetCredential(l).Unset?) {
      var l :| l in layers && !GetCredential(l).Unset? && r == Written(GetCredential(l), l.source);
      assert Admission(l).None?;
    }
  }

  lemma GuardedFields()
    ensures Guarded(GetProviderId) && Guarded(GetProtocolId) && Guarded(GetEndpoint)
    ensures Guarded(GetAudience) && Guarded(GetIdentity) && Guarded(GetMaxErrorBytes)
  {
  }

  ghost predicate InBounds(base: Snapshot, r: Snapshot) {
    && Unrestricted(base.providerId, r.providerId) && Unrestricted(base.protocolId, r.protocolId)
    && Unrestricted(base.endpoint, r.endpoint) && Unrestricted(base.credentialAudience, r.credentialAudience)
    && Unrestricted(base.clientIdentity, r.clientIdentity) && Unrestricted(base.maxErrorBytes, r.maxErrorBytes)
    && OwnSecret(base.credential, r.credential)
  }

  lemma OverridesInBounds(base: Snapshot, layers: seq<Layer>, r: Snapshot)
    requires Overrides(base, layers, r) && Acceptable(layers)
    ensures InBounds(base, r)
  {
    GuardedFields();
    GuardedField(base.providerId, layers, GetProviderId, r.providerId);
    GuardedField(base.protocolId, layers, GetProtocolId, r.protocolId);
    GuardedField(base.endpoint, layers, GetEndpoint, r.endpoint);
    GuardedField(base.credentialAudience, layers, GetAudience, r.credentialAudience);
    GuardedField(base.clientIdentity, layers, GetIdentity, r.clientIdentity);
    GuardedField(base.maxErrorBytes, layers, GetMaxErrorBytes, r.maxErrorBytes);
    SecretField(base.credential, layers, r.credential);
  }

  /** An environment layer decides nothing but its own secret, and a per-request layer decides nothing. */
  lemma RestrictedSourcesStayInBounds(base: Snapshot, layers: seq<Layer>, validate: Validator)
    requires Merge(base, layers, validate).Ok?
    ensures InBounds(base, Merge(base, layers, validate).value)
  {
    HighestLayerWins(base, layers, validate);
    OverridesInBounds(base, layers, Merge(base, layers, validate).value);
  }
}
