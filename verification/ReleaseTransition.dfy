/** The transition validator, and the builder that must satisfy it. */
module ReleaseTransition {
  import opened Outcomes
  import opened ReleaseNames
  import opened ReleaseLock

  // ---- the transition contract ----

  /** Listed names are exactly the ones whose entry differs. */
  ghost predicate ExactlyListed(names: set<Name>, listed: seq<Name>, before: Name -> Option<Component>, after: map<Name, Component>) {
    forall n :: n in names ==> (n in listed <==> before(n) != Lookup(after, n))
  }

  predicate Introduces(n: Name, before: set<Name>, after: set<Name>, listed: seq<Name>) {
    n !in before && n in after && before + {n} == after && n in listed
  }

  ghost predicate AuxiliaryMoves(base: map<Name, Component>, target: map<Name, Component>,
                                 changed: seq<Name>, changedAuxiliary: seq<Name>) {
    var introduced := Introduces(ConsoleIndexContent, base.Keys, target.Keys, changedAuxiliary);
    (introduced ==> Console in changed)
    && (base.Keys == target.Keys || introduced)
    && ExactlyListed(target.Keys, changedAuxiliary, n => Lookup(base, n), target)
  }

  function Before(base: map<Name, Component>, cutover: bool, n: Name): Option<Component> {
    Lookup(base, if cutover then InstalledName(n) else n)
  }

  function RenamedKeys(names: set<Name>, cutover: bool): set<Name> {
    if cutover then set n <- names :: CanonicalName(n) else names
  }

  ghost predicate ComponentsMove(base: map<Name, Component>, target: map<Name, Component>, changed: seq<Name>) {
    var cutover := IsCutover(base.Keys, target.Keys);
    var names := RenamedKeys(base.Keys, cutover);
    (cutover ==> OsaaGateway in changed && OsaaGovernedAdapter in changed)
    && (names == target.Keys || Introduces(Registry, names, target.Keys, changed))
    && ExactlyListed(target.Keys, changed, n => Before(base, cutover, n), target)
  }

  ghost predicate Moves(base: Lock, target: Lock) {
    target.baseReleaseDigest == Some(base.releaseDigest) && target.channel == base.channel && target.trust == base.trust
    && AuxiliaryMoves(AuxiliaryAt(base), AuxiliaryAt(target), Listed(target.changedComponents), Listed(target.changedAuxiliary))
    && ComponentsMove(base.components.at, target.components.at, Listed(target.changedComponents))
  }

  ghost predicate ValidTransition(base: Lock, target: Lock, hash: Hash) {
    ValidLock(base, true, hash) && ValidLock(target, false, hash)
    && if target.scope.ComponentScope? then Moves(base, target) else !LegacyIdentity(base.components.at.Keys)
  }

  // ---- the validator ----

  /** The two loops of the validator: an introduced name counts as different. */
  method CheckListed(names: seq<Name>, listed: seq<Name>, before: Name -> Option<Component>, after: map<Name, Component>,
                     introduced: Option<Name>)
    returns (ok: bool)
    requires introduced.Some? ==> before(introduced.value) != Lookup(after, introduced.value)
    ensures ok <==> ExactlyListed(Members(names), listed, before, after)
  {
    for i := 0 to |names|
      invariant forall j :: 0 <= j < i ==> (names[j] in listed <==> before(names[j]) != Lookup(after, names[j]))
    {
      var n := names[i];
      var differs := if introduced == Some(n) then true else before(n) != Lookup(after, n);
      if n in listed && !differs { assert n in Members(names); return false; }
      if n !in listed && differs { assert n in Members(names); return false; }
    }
    return true;
  }

  function SortedKeys(at: map<Name, Component>): (names: seq<Name>)
    requires forall n :: n in at ==> Rank(n) < Count
    ensures StrictlySorted(names) && Members(names) == at.Keys
  {
    Sorted(n => n in at)
  }

  method CheckAuxiliary(base: map<Name, Component>, target: map<Name, Component>, changed: seq<Name>, changedAuxiliary: seq<Name>)
    returns (ok: bool)
    requires forall n :: n in target ==> Rank(n) < Count
    ensures ok <==> AuxiliaryMoves(base, target, changed, changedAuxiliary)
  {
    var introduced := Introduces(ConsoleIndexContent, base.Keys, target.Keys, changedAuxiliary);
    if introduced && Console !in changed { return false; }
    if base.Keys != target.Keys && !introduced { return false; }
    var names := SortedKeys(target);
    ok := CheckListed(names, changedAuxiliary, n => Lookup(base, n), target, if introduced then Some(ConsoleIndexContent) else None);
  }

  method CheckComponents(base: map<Name, Component>, target: map<Name, Component>, changed: seq<Name>)
    returns (ok: bool)
    requires forall n :: n in target ==> Rank(n) < Count
    ensures ok <==> ComponentsMove(base, target, changed)
  {
    var cutover := IsCutover(base.Keys, target.Keys);
    if cutover && !(OsaaGateway in changed && OsaaGovernedAdapter in changed) { return false; }
    var baseNames := RenamedKeys(base.Keys, cutover);
    var introduced := Introduces(Registry, baseNames, target.Keys, changed);
    if baseNames != target.Keys && !introduced { return false; }
    var names := SortedKeys(target);
    assert introduced ==> CanonicalName(Registry) !in baseNames && Registry !in base;
    ok := CheckListed(names, changed, n => Before(base, cutover, n), target, if introduced then Some(Registry) else None);
  }

  lemma AuxiliaryOrderNames(p: Profile, withIndex: bool, n: Name)
    requires n in AuxiliaryOrder(p, withIndex)
    ensures Auxiliary(n) && Rank(n) < Count
  {
  }

  lemma AuxiliaryNamesAreKnown(l: Lock, p: Profile, n: Name)
    requires AuxiliaryOk(l, p) && n in AuxiliaryAt(l)
    ensures Auxiliary(n) && Rank(n) < Count
  {
    AuxiliaryOrderNames(p, ConsoleIndexContent in l.auxiliary.value.at, n);
  }

  lemma ValidNamesAreKnown(l: Lock, allowCutover: bool, hash: Hash)
    requires ValidLock(l, allowCutover, hash)
    ensures forall n :: n in l.components.at ==> Rank(n) < Count
    ensures forall n :: n in AuxiliaryAt(l) ==> Rank(n) < Count
  {
    var p := ProfileOf(l, allowCutover).value;
    assert HasProfile(l.components.at.Keys, p);
    forall n | n in l.components.at ensures Rank(n) < Count { ProfileNamesAreKnown(p, n); }
    forall n | n in AuxiliaryAt(l) ensures Rank(n) < Count { AuxiliaryNamesAreKnown(l, p, n); }
  }

  method ValidateReleaseTransition(base: Lock, target: Lock, hash: Hash) returns (ok: bool)
    ensures ok <==> ValidTransition(base, target, hash)
  {
    var baseOk := ValidateReleaseLock(base, true, hash);
    if !baseOk { return false; }
    var targetOk := ValidateReleaseLock(target, false, hash);
    if !targetOk { return false; }
    if !target.scope.ComponentScope? { return !LegacyIdentity(base.components.at.Keys); }
    if target.baseReleaseDigest != Some(base.releaseDigest) { return false; }
    if target.channel != base.channel || target.trust != base.trust { return false; }
    ValidNamesAreKnown(target, false, hash);
    var artifacts := CheckAuxiliary(AuxiliaryAt(base), AuxiliaryAt(target), Listed(target.changedComponents), Listed(target.changedAuxiliary));
    if !artifacts { return false; }
    ok := CheckComponents(base.components.at, target.components.at, Listed(target.changedComponents));
  }

  // ---- what an accepted transition says ----

  /** An accepted component lock names the release it moves from, and lists exactly the entries that differ from it. */
  lemma AcceptedMoveSays(base: Lock, target: Lock, hash: Hash)
    requires ValidTransition(base, target, hash) && target.scope == ComponentScope
    ensures target.baseReleaseDigest == Some(base.releaseDigest)
    ensures var cutover := OaaGateway in base.components.at && OaaGovernedAdapter in base.components.at
                           && OsaaGateway in target.components.at && OsaaGovernedAdapter in target.components.at;
      forall n | n in target.components.at ::
        n in Listed(target.changedComponents) <==>
          Lookup(base.components.at, if cutover then InstalledName(n) else n) != Some(target.components.at[n])
    ensures forall n | n in AuxiliaryAt(target) ::
      n in Listed(target.changedAuxiliary) <==> Lookup(AuxiliaryAt(base), n) != Some(AuxiliaryAt(target)[n])
  {
    forall n | n in target.components.at ensures n in target.components.at.Keys {}
    forall n | n in AuxiliaryAt(target) ensures n in AuxiliaryAt(target).Keys {}
  }

  /** Only an integrated lock replaces everything, and it cannot be put over a base that still has the old agents. */
  lemma IntegratedMoveSays(base: Lock, target: Lock, hash: Hash)
    requires ValidTransition(base, target, hash) && target.scope != ComponentScope
    ensures !(OaaGateway in base.components.at && OaaGovernedAdapter in base.components.at
              && OsaaGateway !in base.components.at && OsaaGovernedAdapter !in base.components.at)
  {
  }
}
