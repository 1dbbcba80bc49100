/** Release locks, the lock validator, and the transition validator. */
module ReleaseLock {
  import opened Outcomes
  import opened ReleaseNames

  /** `Published(n)` is the one repository the contract assigns to the name `n`. */
  datatype Repository = Published(name: Name) | Foreign(text: string)
  datatype Digest = Sha256(hex: string) | BadDigest(text: string)
  datatype Revision = Commit(hex: string) | BadRevision(text: string)
  datatype Image = Exact(repository: Repository, digest: string) | OtherImage(text: string)
  datatype Flag = Unset | Set(required: bool) | BadFlag
  datatype Component = Component(unsupported: bool, repository: Repository, image: Image,
                                 sourceRevision: Revision, credentials: Flag)

  // ---- objects keyed by name, in insertion order ----

  /** `keys` is the insertion order of the properties held in `at`. */
  datatype Entries = Entries(keys: seq<Name>, at: map<Name, Component>)

  /** Assignment to a property: an existing key keeps its place, a new one goes last. */
  function Put(o: Entries, n: Name, c: Component): (r: Entries)
    ensures r.at == o.at[n := c]
    ensures r.keys == if n in o.at then o.keys else o.keys + [n]
  {
    Entries(if n in o.at then o.keys else o.keys + [n], o.at[n := c])
  }

  function Lookup(at: map<Name, Component>, n: Name): Option<Component> {
    if n in at then Some(at[n]) else None
  }

  // ---- locks ----

  datatype Channel = Edge | OtherChannel
  datatype Trust = LocalEdge | SignedRelease | OtherTrust
  datatype Scope = ScopeUnset | Integrated | ComponentScope | OtherScope

  datatype Lock = Lock(
    unsupported: bool, contract: bool, channel: Channel, releaseDigest: Digest, resolvedAt: int,
    canonicalSource: bool, sourceRevision: Revision, trust: Trust, releaseBom: bool,
    scope: Scope, baseReleaseDigest: Option<Digest>,
    changedComponents: Option<seq<Name>>, changedAuxiliary: Option<seq<Name>>,
    components: Entries, auxiliary: Option<Entries>)

  /** What the release digest covers. */
  datatype Payload = Payload(
    channel: Channel, components: Entries, trust: Trust, releaseBom: bool, scope: Scope,
    baseReleaseDigest: Option<Digest>, changedComponents: Option<seq<Name>>,
    changedAuxiliary: Option<seq<Name>>, auxiliary: Option<Entries>)

  function PayloadOf(l: Lock): Payload {
    Payload(l.channel, l.components, l.trust, l.releaseBom, l.scope, l.baseReleaseDigest,
            l.changedComponents, l.changedAuxiliary, l.auxiliary)
  }

  type Hash = Payload -> string

  function Listed(names: Option<seq<Name>>): seq<Name> { if names.Some? then names.value else [] }

  function Members(names: seq<Name>): set<Name> { set n | n in names }

  function AuxiliaryAt(l: Lock): map<Name, Component> { if l.auxiliary.Some? then l.auxiliary.value.at else map[] }

  // ---- what a valid lock is ----

  predicate IsIntegrated(l: Lock) { l.scope.ScopeUnset? || l.scope.Integrated? }

  predicate Envelope(l: Lock) {
    !l.unsupported && l.contract && l.channel.Edge? && l.releaseDigest.Sha256? && l.canonicalSource
    && l.sourceRevision.Commit? && l.trust.LocalEdge? && !l.releaseBom
  }

  ghost predicate CanonicalSet(names: seq<Name>, allowed: Name -> bool) {
    StrictlySorted(names) && forall i :: 0 <= i < |names| ==> allowed(names[i])
  }

  ghost predicate ScopeDeclared(l: Lock, p: Profile) {
    if IsIntegrated(l) then
      l.baseReleaseDigest.None? && l.changedComponents.None? && l.changedAuxiliary.None?
    else
      l.scope.ComponentScope?
      && l.baseReleaseDigest.Some? && l.baseReleaseDigest.value.Sha256?
      && l.changedComponents.Some? && CanonicalSet(l.changedComponents.value, n => InProfile(p, n))
      && CanonicalSet(Listed(l.changedAuxiliary), Auxiliary)
      && ShellSetComplete(Members(Listed(l.changedAuxiliary)))
      && (l.changedComponents.value != [] || Listed(l.changedAuxiliary) != [])
  }

  /** A canonical exact-digest image at a well-formed revision: the lock's own when the entry is pinned. */
  predicate EntryOk(n: Name, c: Component, pinned: bool, revision: Revision) {
    !c.unsupported && c.image.Exact? && c.repository == c.image.repository && c.repository == Published(n)
    && c.sourceRevision.Commit? && (pinned ==> c.sourceRevision == revision) && !c.credentials.BadFlag?
  }

  predicate EntriesOk(at: map<Name, Component>, integrated: bool, changed: seq<Name>, revision: Revision) {
    forall n <- at.Keys :: EntryOk(n, at[n], integrated || n in changed, revision)
  }

  ghost predicate ComponentsOk(l: Lock) {
    EntriesOk(l.components.at, IsIntegrated(l), Listed(l.changedComponents), l.sourceRevision)
  }

  ghost predicate AuxiliaryOk(l: Lock, p: Profile) {
    (p.Target? ==> l.auxiliary.Some?)
    && (l.auxiliary.Some? ==>
          l.auxiliary.value.keys == AuxiliaryOrder(p, ConsoleIndexContent in l.auxiliary.value.at)
          && l.auxiliary.value.at.Keys == Members(l.auxiliary.value.keys)
          && EntriesOk(l.auxiliary.value.at, IsIntegrated(l), Listed(l.changedAuxiliary), l.sourceRevision))
  }

  predicate Sealed(l: Lock, hash: Hash) { l.releaseDigest == Sha256(hash(PayloadOf(l))) }

  function ProfileOf(l: Lock, allowCutover: bool): Option<Profile> {
    InstalledComponentProfile(l.components.at.Keys, allowCutover)
  }

  ghost predicate ValidAs(l: Lock, p: Profile, hash: Hash) {
    Envelope(l) && ScopeDeclared(l, p) && ComponentsOk(l) && AuxiliaryOk(l, p) && Sealed(l, hash)
  }

  ghost predicate ValidLock(l: Lock, allowCutover: bool, hash: Hash) {
    ProfileOf(l, allowCutover).Some? && ValidAs(l, ProfileOf(l, allowCutover).value, hash)
  }

  // ---- the validator ----

  method CheckEntries(names: seq<Name>, at: map<Name, Component>, integrated: bool, changed: seq<Name>, revision: Revision)
    returns (ok: bool)
    requires forall n :: n in names <==> n in at
    ensures ok <==> EntriesOk(at, integrated, changed, revision)
  {
    for i := 0 to |names|
      invariant forall j :: 0 <= j < i ==> EntryOk(names[j], at[names[j]], integrated || names[j] in changed, revision)
    {
      var n := names[i];
      var c := at[n];
      if c.unsupported || !c.image.Exact? || c.repository != c.image.repository || c.repository != Published(n) { return false; }
      if !c.sourceRevision.Commit? { return false; }
      if integrated && c.sourceRevision != revision { return false; }
      if !integrated && n in changed && c.sourceRevision != revision { return false; }
      if c.credentials.BadFlag? { return false; }
    }
    return true;
  }

  method CheckCanonicalSet(names: seq<Name>, allowed: Name -> bool) returns (ok: bool)
    requires forall n :: allowed(n) ==> Rank(n) < Count
    ensures ok <==> CanonicalSet(names, allowed)
  {
    CanonicalListIff(names);
    var canonical := Sorted(n => n in names);
    ok := |names| == |canonical| && (forall i :: 0 <= i < |names| ==> names[i] == canonical[i])
          && forall i :: 0 <= i < |names| ==> allowed(names[i]);
    assert (|names| == |canonical| && forall i :: 0 <= i < |names| ==> names[i] == canonical[i]) <==> names == canonical;
  }

  method CheckScope(l: Lock, p: Profile) returns (ok: bool)
    ensures ok <==> ScopeDeclared(l, p)
  {
    if IsIntegrated(l) {
      return l.baseReleaseDigest.None? && l.changedComponents.None? && l.changedAuxiliary.None?;
    }
    if !l.scope.ComponentScope? || !l.baseReleaseDigest.Some? || !l.baseReleaseDigest.value.Sha256? { return false; }
    if !l.changedComponents.Some? { return false; }
    forall n | InProfile(p, n) ensures Rank(n) < Count { ProfileNamesAreKnown(p, n); }
    var listed := CheckCanonicalSet(l.changedComponents.value, n => InProfile(p, n));
    if !listed { return false; }
    var auxiliary := Listed(l.changedAuxiliary);
    var listedAuxiliary := CheckCanonicalSet(auxiliary, n => Auxiliary(n));
    if !listedAuxiliary { return false; }
    if !ShellSetComplete(Members(auxiliary)) { return false; }
    return l.changedComponents.value != [] || auxiliary != [];
  }

  method CheckArtifacts(l: Lock, p: Profile) returns (ok: bool)
    ensures ok <==> AuxiliaryOk(l, p)
  {
    if p.Target? && l.auxiliary.None? { return false; }
    if l.auxiliary.None? { return true; }
    var o := l.auxiliary.value;
    var expected := AuxiliaryOrder(p, ConsoleIndexContent in o.at);
    if o.at.Keys != Members(expected) || o.keys != expected { return false; }
    assert forall n :: n in expected <==> n in Members(expected);
    ok := CheckEntries(expected, o.at, IsIntegrated(l), Listed(l.changedAuxiliary), l.sourceRevision);
  }

  method ValidateReleaseLock(l: Lock, allowCutover: bool, hash: Hash) returns (ok: bool)
    ensures ok <==> ValidLock(l, allowCutover, hash)
  {
    if l.unsupported || !l.contract || !l.channel.Edge? || !l.releaseDigest.Sha256? || !l.canonicalSource || !l.sourceRevision.Commit? {
      return false;
    }
    var localEdge := l.trust.LocalEdge?;
    var signedRelease := l.trust.SignedRelease?;
    if !localEdge && !signedRelease { return false; }
    if (l.channel.Edge? && !localEdge) || (!l.channel.Edge? && !signedRelease) { return false; }
    if localEdge && l.releaseBom { return false; }
    var profile := ProfileOf(l, allowCutover);
    var scoped := CheckScope(l, if profile.Some? then profile.value else Canonical);
    if !scoped { return false; }
    if profile.None? { return false; }
    var artifacts := CheckArtifacts(l, profile.value);
    if !artifacts { return false; }
    var entries := CheckEntries(ProfileNames(profile.value), l.components.at, IsIntegrated(l), Listed(l.changedComponents), l.sourceRevision);
    if !entries { return false; }
    return Sealed(l, hash);
  }

  // ---- what an accepted lock says ----

  ghost predicate Injective(hash: Hash) { forall a: Payload, b: Payload :: hash(a) == hash(b) ==> a == b }

  /** With an injective hash the release digest fixes everything an executor acts on. */
  lemma SealCovers(l: Lock, k: Lock, hash: Hash)
    requires Injective(hash) && Sealed(l, hash) && Sealed(k, hash) && l.releaseDigest == k.releaseDigest
    ensures l.components == k.components && l.auxiliary == k.auxiliary && l.channel == k.channel && l.trust == k.trust
    ensures l.releaseBom == k.releaseBom && l.scope == k.scope && l.baseReleaseDigest == k.baseReleaseDigest
    ensures l.changedComponents == k.changedComponents && l.changedAuxiliary == k.changedAuxiliary
  {
  }

  /** A pinned image in the entry's own repository, as the contract publishes it under that name. */
  predicate Pins(n: Name, c: Component) {
    match c
    case Component(false, Published(m), Exact(Published(k), _), Commit(_), flag) => m == n && k == n && flag != BadFlag
    case _ => false
  }

  /** Whatever is accepted is a sealed edge release under local trust, with the names of one profile, every entry pinned. */
  lemma AcceptedLockSays(l: Lock, allowCutover: bool, hash: Hash)
    requires ValidLock(l, allowCutover, hash)
    ensures l.contract && !l.unsupported && l.canonicalSource && !l.releaseBom && l.channel == Edge && l.trust == LocalEdge
    ensures exists d :: l.sourceRevision == Commit(d)
    ensures l.releaseDigest == Sha256(hash(PayloadOf(l)))
    ensures forall n | n in l.components.at :: Pins(n, l.components.at[n])
    ensures forall n | n in AuxiliaryAt(l) :: Pins(n, AuxiliaryAt(l)[n])
  {
    var at, extra := l.components.at, AuxiliaryAt(l);
    forall n | n in at ensures Pins(n, at[n]) {
      assert n in at.Keys;
      OkPins(n, at[n], IsIntegrated(l) || n in Listed(l.changedComponents), l.sourceRevision);
    }
    forall n | n in extra ensures Pins(n, extra[n]) {
      assert n in extra.Keys;
      OkPins(n, extra[n], IsIntegrated(l) || n in Listed(l.changedAuxiliary), l.sourceRevision);
    }
  }

  /** Whatever is accepted for a component scope names its base and lists what it changes, sorted and known; an integrated lock lists nothing. */
  lemma AcceptedScopeSays(l: Lock, allowCutover: bool, hash: Hash)
    requires ValidLock(l, allowCutover, hash)
    ensures l.scope == ComponentScope || ((l.scope == ScopeUnset || l.scope == Integrated)
                                          && l.baseReleaseDigest == None && l.changedComponents == None && l.changedAuxiliary == None)
    ensures l.scope == ComponentScope ==>
      var changed, artifacts := Listed(l.changedComponents), Listed(l.changedAuxiliary);
      && l.changedComponents.Some? && (exists d :: l.baseReleaseDigest == Some(Sha256(d)))
      && StrictlySorted(changed) && (forall n | n in changed :: n in l.components.at)
      && StrictlySorted(artifacts) && (forall n | n in artifacts :: n in [CliArtifacts, OsShellControl, OsShellRuntime, ConsoleIndexContent])
      && (OsShellControl in artifacts <==> OsShellRuntime in artifacts) && (OsShellControl in artifacts ==> CliArtifacts in artifacts)
      && |changed| + |artifacts| > 0
  {
    if l.scope == ComponentScope {
      var artifacts, p := Listed(l.changedAuxiliary), ProfileOf(l, allowCutover).value;
      assert forall n :: n in artifacts <==> n in Members(artifacts);
      assert HasProfile(l.components.at.Keys, p);
      forall n | n in Listed(l.changedComponents) ensures n in l.components.at { assert InProfile(p, n) <==> n in l.components.at.Keys; }
    }
  }

  lemma OkPins(n: Name, c: Component, pinned: bool, revision: Revision)
    requires EntryOk(n, c, pinned, revision)
    ensures Pins(n, c) && (pinned ==> c.sourceRevision == revision)
  {
  }
}
