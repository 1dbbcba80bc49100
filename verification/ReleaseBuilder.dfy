/** Building a component release lock from evidence, and exactly when that succeeds. */
module ReleaseBuilder {
  import opened Outcomes
  import opened ReleaseNames
  import opened ReleaseLock
  import opened ReleaseTransition

  /** Evidence may give a bare digest or a full image reference. */
  datatype Given = DigestOnly(digest: string) | Full(image: Image)
  datatype Item = Item(unsupported: bool, image: Given, credentials: Flag)
  datatype Evidence = Evidence(unsupported: bool, sourceRevision: Revision, components: map<Name, Item>, auxiliary: map<Name, Item>)

  function NormalizeImage(n: Name, g: Given): Option<Image> {
    match g
    case DigestOnly(d) => Some(Exact(Published(n), d))
    case Full(image) => if image.Exact? && image.repository == Published(n) then Some(image) else None
  }

  predicate ItemOk(n: Name, item: Item) {
    !item.unsupported && !item.credentials.BadFlag? && NormalizeImage(n, item.image).Some?
  }

  /** The entry the builder writes: the credential flag falls back to the installed one, then to false. */
  function Construct(n: Name, item: Item, revision: Revision, before: Option<Component>): Component
    requires ItemOk(n, item)
  {
    Component(false, Published(n), NormalizeImage(n, item.image).value, revision,
              if item.credentials.Set? then item.credentials
              else if before.Some? && !before.value.credentials.Unset? then before.value.credentials
              else Set(false))
  }

  /** The evidence's own flag, else the installed one, else false. */
  predicate CarriesFlag(given: Flag, installed: Option<Component>, flag: Flag) {
    && (given.Set? ==> flag == given)
    && (given.Unset? && installed.Some? && installed.value.credentials.Set? ==> flag == installed.value.credentials)
    && (given.Unset? && (installed.None? || installed.value.credentials.Unset?) ==> flag == Set(false))
  }

  /** The entry is published where its name belongs, pinned to the digest and revision of the evidence, and keeps its flag. */
  predicate Delivers(n: Name, item: Item, revision: Revision, installed: Option<Component>, c: Component) {
    && !c.unsupported && c.repository == Published(n) && c.sourceRevision == revision
    && c.image.Exact? && c.image.repository == Published(n)
    && (item.image == DigestOnly(c.image.digest) || item.image == Full(c.image))
    && CarriesFlag(item.credentials, installed, c.credentials)
  }

  lemma EntryDelivers(n: Name, item: Item, revision: Revision, installed: Option<Component>)
    requires ItemOk(n, item)
    ensures Delivers(n, item, revision, installed, Construct(n, item, revision, installed))
  {
  }

  ghost predicate AllKnown(items: map<Name, Item>) { forall n :: n in items ==> Rank(n) < Count }

  /** The evidence's names, sorted. */
  function Names(items: map<Name, Item>): (names: seq<Name>)
    requires AllKnown(items)
    ensures StrictlySorted(names) && Distinct(names)
    ensures Members(names) == items.Keys
    ensures names == [] <==> items == map[]
  {
    var names := Sorted(n => n in items);
    SortedDistinct(names);
    NamesEmpty(items, names);
    names
  }

  lemma NamesEmpty(items: map<Name, Item>, names: seq<Name>)
    requires forall n :: n in names <==> n in items
    ensures names == [] <==> items == map[]
  {
    if names != [] { assert names[0] in items; }
    if items != map[] { var n :| n in items; assert n in names; }
  }

  // ---- the replacement loop ----

  function Missing(names: seq<Name>, at: map<Name, Component>): seq<Name> {
    if names == [] then []
    else
      var last := names[|names| - 1];
      Missing(names[..|names| - 1], at) + if last in at then [] else [last]
  }

  ghost predicate Overlaid(start: map<Name, Component>, items: map<Name, Item>, before: Name -> Option<Component>, revision: Revision,
                           names: seq<Name>, at: map<Name, Component>) {
    forall n :: (n in names ==> n in items && ItemOk(n, items[n]))
             && Lookup(at, n) == if n in names then Some(Construct(n, items[n], revision, before(n))) else Lookup(start, n)
  }

  ghost predicate Replaced(start: Entries, items: map<Name, Item>, before: Name -> Option<Component>, revision: Revision,
                           names: seq<Name>, o: Entries) {
    Overlaid(start.at, items, before, revision, names, o.at) && o.keys == start.keys + Missing(names, start.at)
  }

  lemma OverlaidStep(start: map<Name, Component>, items: map<Name, Item>, before: Name -> Option<Component>, revision: Revision,
                     names: seq<Name>, at: map<Name, Component>, n: Name)
    requires Overlaid(start, items, before, revision, names, at) && n in items && ItemOk(n, items[n])
    ensures Overlaid(start, items, before, revision, names + [n], at[n := Construct(n, items[n], revision, before(n))])
  {
  }

  lemma MissingStep(names: seq<Name>, at: map<Name, Component>, n: Name)
    ensures Missing(names + [n], at) == Missing(names, at) + if n in at then [] else [n]
  {
    assert (names + [n])[..|names|] == names;
  }

  lemma ReplacedNone(start: Entries, items: map<Name, Item>, before: Name -> Option<Component>, revision: Revision)
    ensures Replaced(start, items, before, revision, [], start)
  {
  }

  lemma ReplacedStep(start: Entries, items: map<Name, Item>, before: Name -> Option<Component>, revision: Revision,
                     names: seq<Name>, o: Entries, n: Name)
    requires Replaced(start, items, before, revision, names, o) && n !in names && n in items && ItemOk(n, items[n])
    ensures Replaced(start, items, before, revision, names + [n], Put(o, n, Construct(n, items[n], revision, before(n))))
  {
    OverlaidStep(start.at, items, before, revision, names, o.at, n);
    MissingStep(names, start.at, n);
    UnlistedStays(start.at, items, before, revision, names, o.at, n);
    Regroup(start.keys, Missing(names, start.at), if n in start.at then [] else [n]);
  }

  lemma UnlistedStays(start: map<Name, Component>, items: map<Name, Item>, before: Name -> Option<Component>, revision: Revision,
                      names: seq<Name>, at: map<Name, Component>, n: Name)
    requires Overlaid(start, items, before, revision, names, at) && n !in names
    ensures n in at <==> n in start
  {
    assert Lookup(at, n) == Lookup(start, n);
  }

  lemma Regroup(a: seq<Name>, b: seq<Name>, c: seq<Name>)
    ensures (a + b) + c == a + (b + c) && a + [] == a
  {
  }

  lemma ReplacedDelivers(start: Entries, items: map<Name, Item>, before: Name -> Option<Component>, revision: Revision,
                         names: seq<Name>, o: Entries)
    requires Replaced(start, items, before, revision, names, o) && forall n :: n in names <==> n in items
    ensures forall n | n in items :: n in o.at && Delivers(n, items[n], revision, before(n), o.at[n])
    ensures forall n | n !in items :: Lookup(o.at, n) == Lookup(start.at, n)
  {
    forall n | n in items ensures n in o.at && Delivers(n, items[n], revision, before(n), o.at[n]) {
      assert Lookup(o.at, n) == Some(Construct(n, items[n], revision, before(n)));
      EntryDelivers(n, items[n], revision, before(n));
    }
  }

  method Replace(start: Entries, names: seq<Name>, items: map<Name, Item>, before: Name -> Option<Component>, revision: Revision)
    returns (r: Option<Entries>)
    requires Distinct(names) && forall n :: n in names <==> n in items
    ensures r.Some? <==> forall n <- items.Keys :: ItemOk(n, items[n])
    ensures r.Some? ==> Replaced(start, items, before, revision, names, r.value)
    ensures r.Some? ==> forall n | n in items :: n in r.value.at && Delivers(n, items[n], revision, before(n), r.value.at[n])
    ensures r.Some? ==> forall n | n !in items :: Lookup(r.value.at, n) == Lookup(start.at, n)
  {
    var o := start;
    ReplacedNone(start, items, before, revision);
    assert names[..0] == [];
    for i := 0 to |names|
      invariant forall j :: 0 <= j < i ==> ItemOk(names[j], items[names[j]])
      invariant Replaced(start, items, before, revision, names[..i], o)
    {
      var n := names[i];
      var item := items[n];
      if item.unsupported || item.credentials.BadFlag? || NormalizeImage(n, item.image).None? {
        assert n in items.Keys && !ItemOk(n, items[n]);
        return None;
      }
      assert n !in names[..i];
      ReplacedStep(start, items, before, revision, names[..i], o, n);
      assert names[..i + 1] == names[..i] + [n];
      o := Put(o, n, Construct(n, item, revision, before(n)));
    }
    assert names[..|names|] == names;
    ReplacedDelivers(start, items, before, revision, names, o);
    return Some(o);
  }

  // ---- renaming an installed base ----

  function RenamedAt(at: map<Name, Component>, cutover: bool): (r: map<Name, Component>)
    requires cutover ==> LegacyIdentity(at.Keys)
    ensures r.Keys == RenamedKeys(at.Keys, cutover)
    ensures forall n :: Lookup(r, n) == if cutover && LegacyAgent(n) then None else Before(at, cutover, n)
  {
    if !cutover then at
    else map c | c in RenamedKeys(at.Keys, true) :: at[InstalledName(c)]
  }

  function Renamed(o: Entries, cutover: bool): (r: Entries)
    requires cutover ==> LegacyIdentity(o.at.Keys)
    ensures r.at == RenamedAt(o.at, cutover)
  {
    if !cutover then o
    else
      var keys := seq(|o.keys|, i requires 0 <= i < |o.keys| => CanonicalName(o.keys[i]));
      Entries(keys, RenamedAt(o.at, true))
  }

  // ---- when the builder succeeds ----

  function Supported(p: Profile): Profile { if p.Target? then Target else Canonical }

  predicate EvidenceOk(e: Evidence, p: Profile) {
    !e.unsupported && e.sourceRevision.Commit?
    && (forall n <- e.components.Keys :: InProfile(Supported(p), n) && ItemOk(n, e.components[n]))
    && (forall n <- e.auxiliary.Keys :: Auxiliary(n) && ItemOk(n, e.auxiliary[n]))
  }

  /** What the builder rejects before it assembles anything. */
  predicate Admissible(e: Evidence, p: Profile) {
    EvidenceOk(e, p)
    && ShellSetComplete(e.auxiliary.Keys)
    && (p.Target? || e.auxiliary == map[])
    && (e.components != map[] || e.auxiliary != map[])
    && (p.PreOsaa? ==> OsaaGateway in e.components && OsaaGovernedAdapter in e.components)
  }

  /** Every listed entry really changes. */
  ghost predicate AllDiffer(items: map<Name, Item>, revision: Revision, before: Name -> Option<Component>) {
    forall n :: n in items && ItemOk(n, items[n]) ==> before(n) != Some(Construct(n, items[n], revision, before(n)))
  }

  function InstalledComponent(base: Lock, p: Profile): (f: Name -> Option<Component>)
    ensures forall n :: f(n) == Before(base.components.at, p.PreOsaa?, n)
  {
    n => Before(base.components.at, p.PreOsaa?, n)
  }

  function InstalledArtifact(base: Lock): (f: Name -> Option<Component>)
    ensures forall n :: f(n) == Lookup(AuxiliaryAt(base), n)
  {
    n => Lookup(AuxiliaryAt(base), n)
  }

  /** Each listed component differs from the installed one; a base without OSDST cannot be moved at all. */
  ghost predicate ComponentsChange(base: Lock, e: Evidence, p: Profile) {
    !p.PreOsdst? && AllDiffer(e.components, e.sourceRevision, InstalledComponent(base, p))
  }

  /** Each listed artifact differs; introducing the console index also lists the console. */
  ghost predicate ArtifactsChange(base: Lock, e: Evidence) {
    AllDiffer(e.auxiliary, e.sourceRevision, InstalledArtifact(base))
    && (ConsoleIndexContent in e.auxiliary && ConsoleIndexContent !in AuxiliaryAt(base) ==> Console in e.components)
  }

  ghost predicate Buildable(base: Lock, e: Evidence, p: Profile) {
    Admissible(e, p)
    && (p.PreRegistry? ==> Registry in e.components)
    && ComponentsChange(base, e, p)
    && ArtifactsChange(base, e)
  }

  // ---- the assembled lock ----

  function Draft(base: Lock, e: Evidence, components: Entries, auxiliary: Entries, now: int): Lock
    requires AllKnown(e.components) && AllKnown(e.auxiliary)
  {
    Lock(false, true, Edge, BadDigest(""), now, true, e.sourceRevision, LocalEdge, false,
         ComponentScope, Some(base.releaseDigest),
         Some(Names(e.components)),
         (if e.auxiliary == map[] then None else Some(Names(e.auxiliary))),
         components, if auxiliary.keys == [] then None else Some(auxiliary))
  }

  function Assemble(base: Lock, e: Evidence, components: Entries, auxiliary: Entries, now: int, hash: Hash): Lock
    requires AllKnown(e.components) && AllKnown(e.auxiliary)
  {
    var draft := Draft(base, e, components, auxiliary, now);
    draft.(releaseDigest := Sha256(hash(PayloadOf(draft))))
  }

  // ---- component names ----

  /** The profile a base has once its agents carry their canonical names. */
  function Started(p: Profile): Profile { if p.PreOsaa? then Canonical else p }

  /** An installed base carries the old agent names exactly in the pre-OSAA profile. */
  lemma LegacyIsPreOsaa(names: set<Name>, p: Profile)
    requires HasProfile(names, p)
    ensures LegacyIdentity(names) <==> p.PreOsaa?
    ensures HasLegacyAgents(names) <==> p.PreOsaa?
  {
    assert OaaGateway in names <==> InProfile(p, OaaGateway);
    assert OsaaGateway in names <==> InProfile(p, OsaaGateway);
    assert OaaGovernedAdapter in names <==> InProfile(p, OaaGovernedAdapter);
    assert OsaaGovernedAdapter in names <==> InProfile(p, OsaaGovernedAdapter);
  }

  lemma RenamedProfile(names: set<Name>, p: Profile)
    requires HasProfile(names, p)
    ensures HasProfile(RenamedKeys(names, p.PreOsaa?), Started(p))
  {
    if p.PreOsaa? {
      forall n ensures n in RenamedKeys(names, true) <==> InProfile(Canonical, n) { RenamedPreOsaa(names, n); }
    }
  }

  lemma RenamedPreOsaa(names: set<Name>, n: Name)
    requires HasProfile(names, PreOsaa)
    ensures n in RenamedKeys(names, true) <==> InProfile(Canonical, n)
  {
    assert InstalledName(n) in names <==> InProfile(PreOsaa, InstalledName(n));
    if InProfile(Canonical, n) {
      assert CanonicalName(InstalledName(n)) == n;
    }
  }

  predicate Complete(p: Profile, listed: set<Name>) {
    (p.PreOsdst? ==> Osdst in listed) && (p.PreRegistry? ==> Registry in listed)
  }

  lemma MergedProfile(start: set<Name>, p: Profile, listed: set<Name>)
    requires HasProfile(start, p) && !p.PreOsaa?
    requires forall n :: n in listed ==> InProfile(Supported(p), n)
    ensures HasProfile(start + listed, Supported(p)) <==> Complete(p, listed)
    ensures InstalledComponentProfile(start + listed, false) == if Complete(p, listed) then Some(Supported(p)) else None
  {
    forall n ensures n in start + listed <==> InProfile(p, n) || n in listed { }
    assert InProfile(p, Console) && !InProfile(Canonical, ConsoleApi);
    var found := InstalledComponentProfile(start + listed, false);
    if Complete(p, listed) {
      assert HasProfile(start + listed, Supported(p));
    } else {
      NothingMerged(start, p, listed, Canonical);
      NothingMerged(start, p, listed, Target);
    }
  }

  lemma NothingMerged(start: set<Name>, p: Profile, listed: set<Name>, q: Profile)
    requires HasProfile(start, p) && !p.PreOsaa? && !Complete(p, listed)
    requires forall n :: n in listed ==> InProfile(Canonical, n)
    requires q.Target? || q.Canonical?
    ensures !HasProfile(start + listed, q)
  {
    var n := if p.PreOsdst? then Osdst else Registry;
    assert InProfile(q, n) && n !in start + listed;
  }

  /** The component set is kept, or gains the registry: never for a base without OSDST. */
  lemma NamesDecided(start: set<Name>, p: Profile, listed: seq<Name>)
    requires HasProfile(start, p) && !p.PreOsaa?
    requires HasProfile(start + Members(listed), Supported(p))
    ensures (start == start + Members(listed) || Introduces(Registry, start, start + Members(listed), listed)) <==> !p.PreOsdst?
  {
    var all := start + Members(listed);
    if p.PreOsdst? {
      assert Osdst in all && Osdst !in start && Registry in start;
    } else if p.PreRegistry? {
      assert Registry in all && Registry !in start && Registry in listed;
      forall n ensures n in all <==> n in start + {Registry} { assert InProfile(Canonical, n) <==> n in all; }
    } else {
      forall n ensures n in all <==> n in start { }
    }
  }

  // ---- entries ----

  lemma OverlayKeys(start: map<Name, Component>, items: map<Name, Item>, before: Name -> Option<Component>, revision: Revision,
                    names: seq<Name>, at: map<Name, Component>)
    requires Overlaid(start, items, before, revision, names, at)
    ensures at.Keys == start.Keys + Members(names)
  {
    forall n ensures n in at <==> n in start || n in names {
      assert Lookup(at, n) == if n in names then Some(Construct(n, items[n], revision, before(n))) else Lookup(start, n);
    }
  }

  /** Unlisted entries are carried over, so "exactly the listed ones differ" is "every listed one differs". */
  lemma ListedDecided(start: map<Name, Component>, items: map<Name, Item>, before: Name -> Option<Component>, revision: Revision,
                      names: seq<Name>, at: map<Name, Component>)
    requires Overlaid(start, items, before, revision, names, at)
    requires forall n :: n in names <==> n in items
    requires forall n :: n in start && n !in names ==> before(n) == Lookup(start, n)
    ensures ExactlyListed(at.Keys, names, before, at) <==> AllDiffer(items, revision, before)
  {
    OverlayKeys(start, items, before, revision, names, at);
    forall n | n in at && n !in names ensures before(n) == Lookup(at, n) { assert n in start; }
  }

  lemma OverlayEntriesOk(start: map<Name, Component>, items: map<Name, Item>, before: Name -> Option<Component>, revision: Revision,
                         names: seq<Name>, at: map<Name, Component>)
    requires Overlaid(start, items, before, revision, names, at) && revision.Commit?
    requires forall n :: n in start && n !in names ==> EntryOk(n, start[n], false, revision)
    requires forall n :: before(n).Some? ==> !before(n).value.credentials.BadFlag?
    ensures EntriesOk(at, false, names, revision)
  {
    forall n | n in at.Keys ensures EntryOk(n, at[n], n in names, revision) {
      assert Lookup(at, n) == if n in names then Some(Construct(n, items[n], revision, before(n))) else Lookup(start, n);
    }
  }

  // ---- auxiliary order ----

  predicate HasShell(at: map<Name, Component>) { CliArtifacts in at && OsShellControl in at && OsShellRuntime in at }

  lemma {:induction false} MissingIsIndex(names: seq<Name>, at: map<Name, Component>)
    requires Distinct(names) && (forall i :: 0 <= i < |names| ==> Auxiliary(names[i])) && HasShell(at)
    ensures Missing(names, at) == if ConsoleIndexContent in names && ConsoleIndexContent !in at then [ConsoleIndexContent] else []
  {
    if names != [] {
      var rest := names[..|names| - 1];
      assert Distinct(rest);
      MissingIsIndex(rest, at);
      assert names == rest + [names[|names| - 1]];
    }
  }

  lemma ShellInstalled(o: Entries)
    requires o.keys == AuxiliaryOrder(Target, ConsoleIndexContent in o.at) && o.at.Keys == Members(o.keys)
    ensures HasShell(o.at)
  {
    assert o.keys[0] == CliArtifacts && o.keys[1] == OsShellControl && o.keys[2] == OsShellRuntime;
    assert o.keys[0] in Members(o.keys) && o.keys[1] in Members(o.keys) && o.keys[2] in Members(o.keys);
  }

  /** Replacing entries keeps the key list and the properties in step. */
  lemma {:induction false} KeysStayListed(keys: seq<Name>, names: seq<Name>, at: map<Name, Component>)
    requires at.Keys == Members(keys)
    ensures Members(keys + Missing(names, at)) == at.Keys + Members(names)
  {
    if names != [] {
      var rest, last := names[..|names| - 1], names[|names| - 1];
      KeysStayListed(keys, rest, at);
      assert names == rest + [last];
      assert Members(names) == Members(rest) + {last};
      var added := if last in at then [] else [last];
      assert keys + Missing(names, at) == (keys + Missing(rest, at)) + added;
      assert Members((keys + Missing(rest, at)) + added) == Members(keys + Missing(rest, at)) + Members(added);
    } else {
      assert keys + Missing(names, at) == keys;
    }
  }

  lemma IndexOrder(indexed: bool, listed: bool)
    ensures AuxiliaryOrder(Target, indexed) + (if listed && !indexed then [ConsoleIndexContent] else [])
         == AuxiliaryOrder(Target, indexed || listed)
  {
    if indexed {
      assert AuxiliaryOrder(Target, true) + [] == AuxiliaryOrder(Target, true);
    }
  }

  /** A newly introduced console index artifact lands last, which is where the accepted order wants it. */
  lemma IndexGoesLast(o: Entries, names: seq<Name>)
    requires Distinct(names) && forall i :: 0 <= i < |names| ==> Auxiliary(names[i])
    requires o.keys == AuxiliaryOrder(Target, ConsoleIndexContent in o.at) && o.at.Keys == Members(o.keys)
    ensures HasShell(o.at)
    ensures o.keys + Missing(names, o.at) == AuxiliaryOrder(Target, ConsoleIndexContent in o.at || ConsoleIndexContent in names)
  {
    assert HasShell(o.at) by { ShellInstalled(o); }
    MissingIsIndex(names, o.at);
    IndexOrder(ConsoleIndexContent in o.at, ConsoleIndexContent in names);
  }

  // ---- the transition of an assembled lock ----

  lemma ComponentsDecided(base: map<Name, Component>, p: Profile, items: map<Name, Item>, before: Name -> Option<Component>,
                          revision: Revision, names: seq<Name>, at: map<Name, Component>)
    requires HasProfile(base.Keys, p) && LegacyIdentity(base.Keys) == p.PreOsaa?
    requires forall n :: before(n) == Before(base, p.PreOsaa?, n)
    requires Overlaid(RenamedAt(base, p.PreOsaa?), items, before, revision, names, at)
    requires forall n :: n in names <==> n in items
    requires HasProfile(at.Keys, Supported(p))
    requires p.PreOsaa? ==> OsaaGateway in names && OsaaGovernedAdapter in names
    ensures ComponentsMove(base, at, names) <==> !p.PreOsdst? && AllDiffer(items, revision, before)
  {
    var start := RenamedAt(base, p.PreOsaa?);
    assert at.Keys == start.Keys + Members(names) by { OverlayKeys(start, items, before, revision, names, at); }
    CutoverWhenSupported(base.Keys, p, at.Keys);
    RenamedProfile(base.Keys, p);
    NamesDecided(start.Keys, Started(p), names);
    UnlistedCarried(base, p, before, names);
    ListedDecided(start, items, before, revision, names, at);
    SameBefore(base, p.PreOsaa?, before, names, at);
    MovesTogether(base, at, names, p.PreOsaa?, !p.PreOsdst?, AllDiffer(items, revision, before));
  }

  lemma CutoverWhenSupported(base: set<Name>, p: Profile, target: set<Name>)
    requires HasProfile(base, p) && HasProfile(target, Supported(p))
    ensures IsCutover(base, target) == p.PreOsaa?
  {
    LegacyIsPreOsaa(base, p);
    assert InProfile(Supported(p), OsaaGateway) && InProfile(Supported(p), OsaaGovernedAdapter);
  }

  lemma SameBefore(base: map<Name, Component>, cutover: bool, before: Name -> Option<Component>, names: seq<Name>, at: map<Name, Component>)
    requires forall n :: before(n) == Before(base, cutover, n)
    ensures ExactlyListed(at.Keys, names, before, at) <==> ExactlyListed(at.Keys, names, n => Before(base, cutover, n), at)
  {
  }

  lemma MovesTogether(base: map<Name, Component>, at: map<Name, Component>, changed: seq<Name>, cutover: bool, named: bool, differ: bool)
    requires IsCutover(base.Keys, at.Keys) == cutover && (cutover ==> OsaaGateway in changed && OsaaGovernedAdapter in changed)
    requires (var names := RenamedKeys(base.Keys, cutover); names == at.Keys || Introduces(Registry, names, at.Keys, changed)) <==> named
    requires ExactlyListed(at.Keys, changed, n => Before(base, cutover, n), at) <==> differ
    ensures ComponentsMove(base, at, changed) <==> named && differ
  {
  }

  lemma UnlistedCarried(base: map<Name, Component>, p: Profile, before: Name -> Option<Component>, names: seq<Name>)
    requires LegacyIdentity(base.Keys) == p.PreOsaa?
    requires forall n :: before(n) == Before(base, p.PreOsaa?, n)
    ensures forall n :: n in RenamedAt(base, p.PreOsaa?) ==> before(n) == Lookup(RenamedAt(base, p.PreOsaa?), n)
  {
  }

  lemma AuxiliaryDecided(base: map<Name, Component>, items: map<Name, Item>, before: Name -> Option<Component>, revision: Revision,
                         names: seq<Name>, at: map<Name, Component>, changed: seq<Name>)
    requires forall n :: before(n) == Lookup(base, n)
    requires Overlaid(base, items, before, revision, names, at)
    requires forall n :: n in names <==> n in items
    requires names == [] || (HasShell(base) && forall n :: n in names ==> Auxiliary(n))
    ensures AuxiliaryMoves(base, at, changed, names)
       <==> AllDiffer(items, revision, before) && (ConsoleIndexContent in names && ConsoleIndexContent !in base ==> Console in changed)
  {
    OverlayKeys(base, items, before, revision, names, at);
    ListedDecided(base, items, before, revision, names, at);
    assert ExactlyListed(at.Keys, names, before, at) <==> ExactlyListed(at.Keys, names, n => Lookup(base, n), at);
    if ConsoleIndexContent in names && ConsoleIndexContent !in base {
      assert at.Keys == base.Keys + {ConsoleIndexContent};
      assert Introduces(ConsoleIndexContent, base.Keys, at.Keys, names);
    } else {
      assert at.Keys == base.Keys;
    }
  }

  // ---- validity of an assembled lock ----

  function InstalledAuxiliary(l: Lock): (o: Entries)
    ensures o.at == AuxiliaryAt(l)
  {
    if l.auxiliary.Some? then l.auxiliary.value else Entries([], map[])
  }

  lemma EvidenceIsKnown(e: Evidence, p: Profile)
    requires EvidenceOk(e, p)
    ensures AllKnown(e.components) && AllKnown(e.auxiliary)
  {
    forall n | n in e.components ensures Rank(n) < Count { ProfileNamesAreKnown(Supported(p), n); }
    forall n | n in e.auxiliary ensures Rank(n) < Count { assert n in e.auxiliary.Keys; }
  }

  lemma ScopeFits(l: Lock, q: Profile, changed: seq<Name>, artifacts: seq<Name>)
    requires l.scope.ComponentScope? && l.baseReleaseDigest.Some? && l.baseReleaseDigest.value.Sha256?
    requires l.changedComponents == Some(changed) && Listed(l.changedAuxiliary) == artifacts
    requires StrictlySorted(changed) && forall n :: n in Members(changed) ==> InProfile(q, n)
    requires StrictlySorted(artifacts) && forall n :: n in Members(artifacts) ==> Auxiliary(n)
    requires ShellSetComplete(Members(artifacts)) && (changed != [] || artifacts != [])
    ensures ScopeDeclared(l, q)
  {
    forall i | 0 <= i < |changed| ensures InProfile(q, changed[i]) { assert changed[i] in Members(changed); }
    forall i | 0 <= i < |artifacts| ensures Auxiliary(artifacts[i]) { assert artifacts[i] in Members(artifacts); }
  }

  /** Unlisted components of the renamed base keep their own valid entries. */
  lemma CarriedEntryOk(at: map<Name, Component>, cutover: bool, names: seq<Name>, n: Name, integrated: bool, changed: seq<Name>,
                       was: Revision, revision: Revision)
    requires cutover ==> LegacyIdentity(at.Keys) && OsaaGateway in names && OsaaGovernedAdapter in names
    requires EntriesOk(at, integrated, changed, was)
    requires n in RenamedAt(at, cutover) && n !in names
    ensures EntryOk(n, RenamedAt(at, cutover)[n], false, revision)
  {
    assert Lookup(RenamedAt(at, cutover), n) == if cutover && LegacyAgent(n) then None else Before(at, cutover, n);
    assert cutover ==> InstalledName(n) == n;
    assert EntryOk(n, at[n], integrated || n in changed, was);
  }

  lemma NoBadFlags(at: map<Name, Component>, integrated: bool, changed: seq<Name>, was: Revision, n: Name)
    requires EntriesOk(at, integrated, changed, was)
    ensures Lookup(at, n).Some? ==> !Lookup(at, n).value.credentials.BadFlag?
  {
    if n in at { assert EntryOk(n, at[n], integrated || n in changed, was); }
  }

  lemma NewComponentsOk(at: map<Name, Component>, cutover: bool, items: map<Name, Item>, before: Name -> Option<Component>,
                        integrated: bool, changed: seq<Name>, was: Revision, revision: Revision, names: seq<Name>, r: map<Name, Component>)
    requires cutover ==> LegacyIdentity(at.Keys) && OsaaGateway in names && OsaaGovernedAdapter in names
    requires EntriesOk(at, integrated, changed, was) && revision.Commit?
    requires forall n :: before(n) == Before(at, cutover, n)
    requires Overlaid(RenamedAt(at, cutover), items, before, revision, names, r)
    ensures EntriesOk(r, false, names, revision)
  {
    var start := RenamedAt(at, cutover);
    forall n | n in start && n !in names ensures EntryOk(n, start[n], false, revision) {
      CarriedEntryOk(at, cutover, names, n, integrated, changed, was, revision);
    }
    forall n ensures before(n).Some? ==> !before(n).value.credentials.BadFlag? {
      NoBadFlags(at, integrated, changed, was, if cutover then InstalledName(n) else n);
    }
    OverlayEntriesOk(start, items, before, revision, names, r);
  }

  lemma NewArtifactsOk(at: map<Name, Component>, items: map<Name, Item>, before: Name -> Option<Component>,
                       integrated: bool, changed: seq<Name>, was: Revision, revision: Revision, names: seq<Name>, r: map<Name, Component>)
    requires EntriesOk(at, integrated, changed, was) && revision.Commit?
    requires forall n :: before(n) == Lookup(at, n)
    requires Overlaid(at, items, before, revision, names, r)
    ensures EntriesOk(r, false, names, revision)
  {
    forall n | n in at && n !in names ensures EntryOk(n, at[n], false, revision) {
      assert EntryOk(n, at[n], integrated || n in changed, was);
    }
    forall n ensures before(n).Some? ==> !before(n).value.credentials.BadFlag? { NoBadFlags(at, integrated, changed, was, n); }
    OverlayEntriesOk(at, items, before, revision, names, r);
  }

  /** The artifacts of the new lock are listed in the order its profile demands. */
  lemma NewArtifactOrder(start: Entries, present: bool, p: Profile, items: map<Name, Item>, before: Name -> Option<Component>,
                         revision: Revision, names: seq<Name>, r: Entries)
    requires present ==> start.keys == AuxiliaryOrder(p, ConsoleIndexContent in start.at) && start.at.Keys == Members(start.keys)
    requires !present ==> start == Entries([], map[]) && !p.Target?
    requires Distinct(names) && (forall n :: n in Members(names) ==> Auxiliary(n)) && (p.Target? || names == [])
    requires Replaced(start, items, before, revision, names, r)
    ensures present ==> r.keys == AuxiliaryOrder(Supported(p), ConsoleIndexContent in r.at) && r.at.Keys == Members(r.keys)
    ensures !present ==> r == Entries([], map[])
    ensures names == [] || HasShell(start.at)
  {
    forall i | 0 <= i < |names| ensures Auxiliary(names[i]) { assert names[i] in Members(names); }
    OverlayKeys(start.at, items, before, revision, names, r.at);
    assert ConsoleIndexContent in r.at <==> ConsoleIndexContent in start.at || ConsoleIndexContent in names;
    if present { KeysStayListed(start.keys, names, start.at); }
    if p.Target? { IndexGoesLast(start, names); }
  }

  // ---- putting it together ----

  /** `components` and `auxiliary` are the base's, renamed, with the listed entries replaced. */
  ghost predicate Assembled(base: Lock, e: Evidence, p: Profile, components: Entries, auxiliary: Entries)
    requires p.PreOsaa? ==> LegacyIdentity(base.components.at.Keys)
    requires AllKnown(e.components) && AllKnown(e.auxiliary)
  {
    Replaced(Renamed(base.components, p.PreOsaa?), e.components, InstalledComponent(base, p), e.sourceRevision, Names(e.components), components)
    && Replaced(InstalledAuxiliary(base), e.auxiliary, InstalledArtifact(base), e.sourceRevision, Names(e.auxiliary), auxiliary)
  }

  lemma AssembledScope(base: Lock, e: Evidence, p: Profile, t: Lock, components: Entries, auxiliary: Entries, now: int, hash: Hash)
    requires AllKnown(e.components) && AllKnown(e.auxiliary) && Admissible(e, p) && base.releaseDigest.Sha256?
    requires t == Assemble(base, e, components, auxiliary, now, hash)
    ensures ScopeDeclared(t, Supported(p)) && Envelope(t) && Sealed(t, hash) && !IsIntegrated(t)
    ensures Listed(t.changedComponents) == Names(e.components) && Listed(t.changedAuxiliary) == Names(e.auxiliary)
  {
    ScopeFits(t, Supported(p), Names(e.components), Names(e.auxiliary));
  }

  lemma AssembledComponents(base: Lock, e: Evidence, p: Profile, components: Entries, auxiliary: Entries)
    requires p.PreOsaa? ==> LegacyIdentity(base.components.at.Keys)
    requires p.PreOsaa? ==> OsaaGateway in e.components && OsaaGovernedAdapter in e.components
    requires AllKnown(e.components) && AllKnown(e.auxiliary) && e.sourceRevision.Commit?
    requires ComponentsOk(base) && Assembled(base, e, p, components, auxiliary)
    ensures EntriesOk(components.at, false, Names(e.components), e.sourceRevision)
  {
    var names := Names(e.components);
    assert p.PreOsaa? ==> OsaaGateway in Members(names) && OsaaGovernedAdapter in Members(names);
    NewComponentsOk(base.components.at, p.PreOsaa?, e.components, InstalledComponent(base, p), IsIntegrated(base),
                    Listed(base.changedComponents), base.sourceRevision, e.sourceRevision, names, components.at);
  }

  lemma AssembledArtifacts(base: Lock, e: Evidence, p: Profile, components: Entries, auxiliary: Entries)
    requires p.PreOsaa? ==> LegacyIdentity(base.components.at.Keys)
    requires AllKnown(e.components) && AllKnown(e.auxiliary) && e.sourceRevision.Commit?
    requires (forall n :: n in e.auxiliary ==> Auxiliary(n)) && (p.Target? || e.auxiliary == map[])
    requires AuxiliaryOk(base, p) && Assembled(base, e, p, components, auxiliary)
    ensures EntriesOk(auxiliary.at, false, Names(e.auxiliary), e.sourceRevision)
    ensures base.auxiliary.Some? ==> auxiliary.keys == AuxiliaryOrder(Supported(p), ConsoleIndexContent in auxiliary.at)
                                     && auxiliary.at.Keys == Members(auxiliary.keys)
    ensures base.auxiliary.None? ==> auxiliary == Entries([], map[])
    ensures Names(e.auxiliary) == [] || HasShell(AuxiliaryAt(base))
  {
    var names, start := Names(e.auxiliary), InstalledAuxiliary(base);
    NewArtifactsOk(start.at, e.auxiliary, InstalledArtifact(base), IsIntegrated(base), Listed(base.changedAuxiliary),
                   base.sourceRevision, e.sourceRevision, names, auxiliary.at);
    NewArtifactOrder(start, base.auxiliary.Some?, p, e.auxiliary, InstalledArtifact(base), e.sourceRevision, names, auxiliary);
  }

  lemma AssembledProfile(base: Lock, e: Evidence, p: Profile, components: Entries, auxiliary: Entries)
    requires HasProfile(base.components.at.Keys, p)
    requires p.PreOsaa? ==> LegacyIdentity(base.components.at.Keys)
    requires AllKnown(e.components) && AllKnown(e.auxiliary)
    requires forall n :: n in e.components ==> InProfile(Supported(p), n)
    requires Assembled(base, e, p, components, auxiliary)
    ensures InstalledComponentProfile(components.at.Keys, false) == if Complete(p, e.components.Keys) then Some(Supported(p)) else None
  {
    var start := RenamedAt(base.components.at, p.PreOsaa?);
    OverlayKeys(start, e.components, InstalledComponent(base, p), e.sourceRevision, Names(e.components), components.at);
    RenamedProfile(base.components.at.Keys, p);
    MergedProfile(start.Keys, Started(p), e.components.Keys);
  }

  /** What is known about the base and the evidence once the early checks have passed. */
  ghost predicate Ready(base: Lock, e: Evidence, p: Profile) {
    HasProfile(base.components.at.Keys, p) && LegacyIdentity(base.components.at.Keys) == p.PreOsaa?
    && Envelope(base) && ComponentsOk(base) && AuxiliaryOk(base, p)
    && AllKnown(e.components) && AllKnown(e.auxiliary) && Admissible(e, p)
  }

  lemma AssembledArtifactsFit(base: Lock, e: Evidence, p: Profile, components: Entries, auxiliary: Entries, t: Lock)
    requires Ready(base, e, p) && Assembled(base, e, p, components, auxiliary)
    requires t.auxiliary == (if auxiliary.keys == [] then None else Some(auxiliary)) && !IsIntegrated(t)
    requires Listed(t.changedAuxiliary) == Names(e.auxiliary) && t.sourceRevision == e.sourceRevision
    ensures AuxiliaryOk(t, Supported(p)) && AuxiliaryAt(t) == auxiliary.at
    ensures Names(e.auxiliary) == [] || HasShell(AuxiliaryAt(base))
  {
    AssembledArtifacts(base, e, p, components, auxiliary);
    ArtifactsFit(t, p, auxiliary, base.auxiliary.Some?, Names(e.auxiliary), e.sourceRevision);
  }

  lemma ArtifactsFit(t: Lock, p: Profile, auxiliary: Entries, present: bool, names: seq<Name>, revision: Revision)
    requires t.auxiliary == (if auxiliary.keys == [] then None else Some(auxiliary)) && !IsIntegrated(t)
    requires Listed(t.changedAuxiliary) == names && t.sourceRevision == revision
    requires EntriesOk(auxiliary.at, false, names, revision) && (p.Target? ==> present)
    requires present ==> auxiliary.keys == AuxiliaryOrder(Supported(p), ConsoleIndexContent in auxiliary.at)
                         && auxiliary.at.Keys == Members(auxiliary.keys)
    requires !present ==> auxiliary == Entries([], map[])
    ensures AuxiliaryOk(t, Supported(p)) && AuxiliaryAt(t) == auxiliary.at
  {
  }

  lemma ValidWhenFound(t: Lock, q: Profile, complete: bool, hash: Hash)
    requires Envelope(t) && ScopeDeclared(t, q) && ComponentsOk(t) && AuxiliaryOk(t, q) && Sealed(t, hash)
    requires ProfileOf(t, false) == if complete then Some(q) else None
    ensures ValidLock(t, false, hash) <==> complete
  {
  }

  /** The target lock is valid exactly when it completes the canonical component set. */
  lemma AssembledValid(base: Lock, e: Evidence, p: Profile, components: Entries, auxiliary: Entries, now: int, hash: Hash)
    requires Ready(base, e, p) && Assembled(base, e, p, components, auxiliary)
    ensures ValidLock(Assemble(base, e, components, auxiliary, now, hash), false, hash) <==> Complete(p, e.components.Keys)
  {
    var t := Assemble(base, e, components, auxiliary, now, hash);
    AssembledScope(base, e, p, t, components, auxiliary, now, hash);
    AssembledComponents(base, e, p, components, auxiliary);
    AssembledArtifactsFit(base, e, p, components, auxiliary, t);
    AssembledProfile(base, e, p, components, auxiliary);
    ValidWhenFound(t, Supported(p), Complete(p, e.components.Keys), hash);
  }

  lemma MembersAre(items: map<Name, Item>)
    requires AllKnown(items)
    ensures forall n :: n in Names(items) <==> n in items
  {
    forall n ensures n in Names(items) <==> n in items { assert n in Members(Names(items)) <==> n in Names(items); }
  }

  lemma AssembledComponentsMove(base: Lock, e: Evidence, p: Profile, components: Entries, auxiliary: Entries)
    requires Ready(base, e, p) && Assembled(base, e, p, components, auxiliary) && Complete(p, e.components.Keys)
    ensures ComponentsMove(base.components.at, components.at, Names(e.components)) <==> ComponentsChange(base, e, p)
  {
    AssembledProfile(base, e, p, components, auxiliary);
    MembersAre(e.components);
    ComponentsDecided(base.components.at, p, e.components, InstalledComponent(base, p), e.sourceRevision, Names(e.components), components.at);
  }

  lemma AssembledArtifactsMove(base: Lock, e: Evidence, p: Profile, components: Entries, auxiliary: Entries)
    requires Ready(base, e, p) && Assembled(base, e, p, components, auxiliary)
    requires Names(e.auxiliary) == [] || HasShell(AuxiliaryAt(base))
    ensures AuxiliaryMoves(AuxiliaryAt(base), auxiliary.at, Names(e.components), Names(e.auxiliary)) <==> ArtifactsChange(base, e)
  {
    MembersAre(e.components);
    MembersAre(e.auxiliary);
    AuxiliaryDecided(AuxiliaryAt(base), e.auxiliary, InstalledArtifact(base), e.sourceRevision, Names(e.auxiliary), auxiliary.at, Names(e.components));
  }

  lemma MovesWhen(base: Lock, t: Lock, components: bool, artifacts: bool)
    requires t.baseReleaseDigest == Some(base.releaseDigest) && Envelope(base) && Envelope(t)
    requires ComponentsMove(base.components.at, t.components.at, Listed(t.changedComponents)) <==> components
    requires AuxiliaryMoves(AuxiliaryAt(base), AuxiliaryAt(t), Listed(t.changedComponents), Listed(t.changedAuxiliary)) <==> artifacts
    ensures Moves(base, t) <==> components && artifacts
  {
  }

  lemma AssembledMoves(base: Lock, e: Evidence, p: Profile, components: Entries, auxiliary: Entries, now: int, hash: Hash)
    requires Ready(base, e, p) && Assembled(base, e, p, components, auxiliary) && Complete(p, e.components.Keys)
    ensures Moves(base, Assemble(base, e, components, auxiliary, now, hash)) <==> ComponentsChange(base, e, p) && ArtifactsChange(base, e)
  {
    var t := Assemble(base, e, components, auxiliary, now, hash);
    AssembledScope(base, e, p, t, components, auxiliary, now, hash);
    AssembledArtifactsFit(base, e, p, components, auxiliary, t);
    AssembledComponentsMove(base, e, p, components, auxiliary);
    AssembledArtifactsMove(base, e, p, components, auxiliary);
    MovesWhen(base, t, ComponentsChange(base, e, p), ArtifactsChange(base, e));
  }

  lemma ReadyWhenValid(base: Lock, e: Evidence, p: Profile, hash: Hash)
    requires ValidLock(base, true, hash) && ProfileOf(base, true) == Some(p) && Admissible(e, p)
    ensures Ready(base, e, p)
  {
    LegacyIsPreOsaa(base.components.at.Keys, p);
    EvidenceIsKnown(e, p);
  }

  lemma BuildableWhen(base: Lock, e: Evidence, p: Profile)
    requires Admissible(e, p)
    ensures Buildable(base, e, p) <==> Complete(p, e.components.Keys) && ComponentsChange(base, e, p) && ArtifactsChange(base, e)
  {
  }

  lemma TransitionWhen(base: Lock, t: Lock, hash: Hash)
    requires ValidLock(base, true, hash) && t.scope.ComponentScope?
    ensures ValidTransition(base, t, hash) <==> ValidLock(t, false, hash) && Moves(base, t)
  {
  }

  /** The independent transition check accepts an assembled lock exactly when the evidence was buildable. */
  lemma TransitionDecided(base: Lock, e: Evidence, p: Profile, components: Entries, auxiliary: Entries, now: int, hash: Hash)
    requires ValidLock(base, true, hash) && Ready(base, e, p) && Assembled(base, e, p, components, auxiliary)
    ensures ValidTransition(base, Assemble(base, e, components, auxiliary, now, hash), hash) <==> Buildable(base, e, p)
  {
    BuildableWhen(base, e, p);
    AssembledValid(base, e, p, components, auxiliary, now, hash);
    TransitionWhen(base, Assemble(base, e, components, auxiliary, now, hash), hash);
    if Complete(p, e.components.Keys) { AssembledMoves(base, e, p, components, auxiliary, now, hash); }
  }

  /** The new lock against its base: exactly the listed entries differ, and each listed entry is the constructed one. */
  ghost predicate ChangesExactly(base: Lock, e: Evidence, p: Profile, t: Lock) {
    (forall n :: n in t.components.at ==> (n in e.components <==> InstalledComponent(base, p)(n) != Lookup(t.components.at, n)))
    && (forall n :: n in AuxiliaryAt(t) ==> (n in e.auxiliary <==> InstalledArtifact(base)(n) != Lookup(AuxiliaryAt(t), n)))
    && (forall n :: n in e.components && ItemOk(n, e.components[n]) ==>
          Lookup(t.components.at, n) == Some(Construct(n, e.components[n], e.sourceRevision, InstalledComponent(base, p)(n))))
    && (forall n :: n in e.auxiliary && ItemOk(n, e.auxiliary[n]) ==>
          Lookup(AuxiliaryAt(t), n) == Some(Construct(n, e.auxiliary[n], e.sourceRevision, InstalledArtifact(base)(n))))
  }

  /** Reading `Overlaid` off at the listed and at the unlisted names. */
  lemma OverlayChanges(start: map<Name, Component>, items: map<Name, Item>, before: Name -> Option<Component>, revision: Revision,
                       names: seq<Name>, at: map<Name, Component>)
    requires Overlaid(start, items, before, revision, names, at) && AllDiffer(items, revision, before)
    requires forall n :: n in names <==> n in items
    requires forall n :: n in start && n !in names ==> before(n) == Lookup(start, n)
    ensures forall n :: n in at ==> (n in items <==> before(n) != Lookup(at, n))
    ensures forall n :: n in items && ItemOk(n, items[n]) ==> Lookup(at, n) == Some(Construct(n, items[n], revision, before(n)))
  {
    ListedDecided(start, items, before, revision, names, at);
    forall n | n in at ensures n in items <==> before(n) != Lookup(at, n) { assert n in at.Keys; }
  }

  lemma AssembledChanges(base: Lock, e: Evidence, p: Profile, components: Entries, auxiliary: Entries, t: Lock)
    requires Ready(base, e, p) && Assembled(base, e, p, components, auxiliary) && ComponentsChange(base, e, p) && ArtifactsChange(base, e)
    requires t.components == components && AuxiliaryAt(t) == auxiliary.at
    ensures ChangesExactly(base, e, p, t)
  {
    MembersAre(e.components);
    MembersAre(e.auxiliary);
    UnlistedCarried(base.components.at, p, InstalledComponent(base, p), Names(e.components));
    OverlayChanges(RenamedAt(base.components.at, p.PreOsaa?), e.components, InstalledComponent(base, p), e.sourceRevision,
                   Names(e.components), components.at);
    OverlayChanges(AuxiliaryAt(base), e.auxiliary, InstalledArtifact(base), e.sourceRevision, Names(e.auxiliary), auxiliary.at);
  }

  lemma AssembledFacts(base: Lock, e: Evidence, p: Profile, components: Entries, auxiliary: Entries, now: int, hash: Hash)
    requires Ready(base, e, p) && Assembled(base, e, p, components, auxiliary) && Buildable(base, e, p)
    ensures ChangesExactly(base, e, p, Assemble(base, e, components, auxiliary, now, hash))
  {
    var t := Assemble(base, e, components, auxiliary, now, hash);
    AssembledScope(base, e, p, t, components, auxiliary, now, hash);
    AssembledArtifactsFit(base, e, p, components, auxiliary, t);
    AssembledChanges(base, e, p, components, auxiliary, t);
  }

  // ---- what a built lock says ----

  /** The component an entry replaces: the two agents may be installed under their old names. */
  function InstalledAs(at: map<Name, Component>, n: Name): Option<Component> {
    match n
    case OsaaGateway => if OaaGateway in at then Some(at[OaaGateway]) else Lookup(at, n)
    case OsaaGovernedAdapter => if OaaGovernedAdapter in at then Some(at[OaaGovernedAdapter]) else Lookup(at, n)
    case _ => Lookup(at, n)
  }

  /** Every listed entry is the evidence's, and every other one is the installed one. */
  ghost predicate Delivered(base: Lock, e: Evidence, t: Lock) {
    && (forall n | n in e.components ::
          n in t.components.at
          && Delivers(n, e.components[n], e.sourceRevision, InstalledAs(base.components.at, n), t.components.at[n]))
    && (forall n | n in e.auxiliary ::
          n in AuxiliaryAt(t) && Delivers(n, e.auxiliary[n], e.sourceRevision, Lookup(AuxiliaryAt(base), n), AuxiliaryAt(t)[n]))
    && (forall n | n in t.components.at && n !in e.components :: InstalledAs(base.components.at, n) == Some(t.components.at[n]))
    && (forall n | n in AuxiliaryAt(t) && n !in e.auxiliary :: Lookup(AuxiliaryAt(base), n) == Some(AuxiliaryAt(t)[n]))
  }

  lemma InstalledAsBefore(base: Lock, p: Profile, n: Name)
    requires HasProfile(base.components.at.Keys, p) && !LegacyAgent(n)
    ensures InstalledAs(base.components.at, n) == InstalledComponent(base, p)(n)
  {
    var names := base.components.at.Keys;
    assert OaaGateway in names <==> InProfile(p, OaaGateway);
    assert OaaGovernedAdapter in names <==> InProfile(p, OaaGovernedAdapter);
  }

  lemma BuiltIsDelivered(base: Lock, e: Evidence, p: Profile, t: Lock)
    requires ChangesExactly(base, e, p, t) && HasProfile(base.components.at.Keys, p) && EvidenceOk(e, p)
    requires HasProfile(t.components.at.Keys, Supported(p))
    ensures Delivered(base, e, t)
  {
    forall n | n in e.components || n in t.components.at ensures InstalledAs(base.components.at, n) == InstalledComponent(base, p)(n) {
      assert n in t.components.at.Keys ==> InProfile(Supported(p), n);
      assert n in e.components.Keys ==> InProfile(Supported(p), n);
      InstalledAsBefore(base, p, n);
    }
    forall n | n in e.components
      ensures n in t.components.at
              && Delivers(n, e.components[n], e.sourceRevision, InstalledAs(base.components.at, n), t.components.at[n])
    {
      assert n in e.components.Keys;
      EntryDelivers(n, e.components[n], e.sourceRevision, InstalledAs(base.components.at, n));
    }
    forall n | n in e.auxiliary
      ensures n in AuxiliaryAt(t) && Delivers(n, e.auxiliary[n], e.sourceRevision, Lookup(AuxiliaryAt(base), n), AuxiliaryAt(t)[n])
    {
      assert n in e.auxiliary.Keys;
      EntryDelivers(n, e.auxiliary[n], e.sourceRevision, Lookup(AuxiliaryAt(base), n));
    }
  }

  /** Renamed or not, the installed components keep their places in the lock, and new names follow them. */
  predicate KeepsPlaces(base: Entries, after: Entries, listed: map<Name, Item>) {
    && |base.keys| <= |after.keys|
    && (forall i | 0 <= i < |base.keys| ::
          after.keys[i] == (if LegacyIdentity(base.at.Keys) && base.keys[i] == OaaGateway then OsaaGateway
                            else if LegacyIdentity(base.at.Keys) && base.keys[i] == OaaGovernedAdapter then OsaaGovernedAdapter
                            else base.keys[i]))
    && (forall i | |base.keys| <= i < |after.keys| :: after.keys[i] in listed)
  }

  lemma {:induction false} MissingAreListed(names: seq<Name>, at: map<Name, Component>)
    ensures forall n | n in Missing(names, at) :: n in names && n !in at
  {
    if names != [] { MissingAreListed(names[..|names| - 1], at); }
  }

  lemma ReplacedKeepsPlaces(base: Entries, items: map<Name, Item>, before: Name -> Option<Component>, revision: Revision, after: Entries)
    requires AllKnown(items)
    requires Replaced(Renamed(base, LegacyIdentity(base.at.Keys)), items, before, revision, Names(items), after)
    ensures KeepsPlaces(base, after, items)
  {
    var start := Renamed(base, LegacyIdentity(base.at.Keys));
    MembersAre(items);
    MissingAreListed(Names(items), start.at);
    assert |start.keys| == |base.keys|;
    forall i | |base.keys| <= i < |after.keys| ensures after.keys[i] in items {
      assert after.keys[i] == Missing(Names(items), start.at)[i - |base.keys|];
    }
  }

  /** The new lock names its base and its changes, sorted, and is dated now. */
  predicate Declares(base: Lock, e: Evidence, now: int, t: Lock) {
    && t.resolvedAt == now && t.sourceRevision == e.sourceRevision && t.baseReleaseDigest == Some(base.releaseDigest)
    && t.scope == ComponentScope
    && t.changedComponents.Some? && StrictlySorted(t.changedComponents.value) && Members(t.changedComponents.value) == e.components.Keys
    && (t.changedAuxiliary.None? <==> e.auxiliary == map[])
    && StrictlySorted(Listed(t.changedAuxiliary)) && Members(Listed(t.changedAuxiliary)) == e.auxiliary.Keys
  }

  /**
   * When a listed entry counts as unchanged: the same digest at the same revision, and an installed flag that is set
   * and that the evidence does not contradict. An installed entry without a flag always changes.
   */
  lemma UnchangedIff(n: Name, item: Item, revision: Revision, installed: Option<Component>)
    requires ItemOk(n, item)
    ensures installed == Some(Construct(n, item, revision, installed)) <==>
      && installed.Some? && !installed.value.unsupported && installed.value.repository == Published(n)
      && installed.value.sourceRevision == revision
      && installed.value.image.Exact? && installed.value.image.repository == Published(n)
      && (item.image == DigestOnly(installed.value.image.digest) || item.image == Full(installed.value.image))
      && !installed.value.credentials.Unset? && (item.credentials.Unset? || item.credentials == installed.value.credentials)
  {
  }

  // ---- the builder ----

  /** The checks made before anything is assembled, apart from those on single items. */
  method CheckEvidence(e: Evidence, p: Profile) returns (ok: bool)
    ensures ok ==> AllKnown(e.components) && AllKnown(e.auxiliary)
    ensures ok && AllItemsOk(e.components) && AllItemsOk(e.auxiliary) <==> Admissible(e, p)
  {
    if e.unsupported || !e.sourceRevision.Commit? { return false; }
    if exists n <- e.components.Keys :: !InProfile(Supported(p), n) { return false; }
    if exists n <- e.auxiliary.Keys :: !Auxiliary(n) { return false; }
    forall n | n in e.components ensures Rank(n) < Count { ProfileNamesAreKnown(Supported(p), n); }
    forall n | n in e.auxiliary ensures Rank(n) < Count { assert Auxiliary(n); }
    if !ShellSetComplete(e.auxiliary.Keys) { return false; }
    if !p.Target? && e.auxiliary != map[] { return false; }
    if e.components == map[] && e.auxiliary == map[] { return false; }
    if p.PreOsaa? && !(OsaaGateway in e.components && OsaaGovernedAdapter in e.components) { return false; }
    return true;
  }

  /** All that is known once both replacement loops have succeeded. */
  lemma AfterReplacing(base: Lock, e: Evidence, p: Profile, components: Entries, auxiliary: Entries, now: int, hash: Hash)
    requires ValidLock(base, true, hash) && ProfileOf(base, true) == Some(p) && Admissible(e, p)
    requires p.PreOsaa? ==> LegacyIdentity(base.components.at.Keys)
    requires AllKnown(e.components) && AllKnown(e.auxiliary) && Assembled(base, e, p, components, auxiliary)
    ensures var t := Assemble(base, e, components, auxiliary, now, hash);
      (ValidTransition(base, t, hash) <==> Buildable(base, e, p)) && (Buildable(base, e, p) ==> ChangesExactly(base, e, p, t))
      && Declares(base, e, now, t)
  {
    AssembledDeclares(base, e, components, auxiliary, now, hash);
    ReadyWhenValid(base, e, p, hash);
    TransitionDecided(base, e, p, components, auxiliary, now, hash);
    if Buildable(base, e, p) { AssembledFacts(base, e, p, components, auxiliary, now, hash); }
  }

  predicate AllItemsOk(items: map<Name, Item>) { forall n <- items.Keys :: ItemOk(n, items[n]) }

  method ReplaceListed(start: Entries, items: map<Name, Item>, before: Name -> Option<Component>, revision: Revision)
    returns (r: Option<Entries>)
    requires AllKnown(items)
    ensures r.Some? <==> AllItemsOk(items)
    ensures r.Some? ==> Replaced(start, items, before, revision, Names(items), r.value)
  {
    MembersAre(items);
    r := Replace(start, Names(items), items, before, revision);
  }

  lemma AssembledDeclares(base: Lock, e: Evidence, components: Entries, auxiliary: Entries, now: int, hash: Hash)
    requires AllKnown(e.components) && AllKnown(e.auxiliary)
    ensures Declares(base, e, now, Assemble(base, e, components, auxiliary, now, hash))
  {
    assert Members([]) == {};
  }

  /** Both replacement loops and the target lock; nothing when an item is malformed. */
  method AssembleTarget(base: Lock, e: Evidence, p: Profile, now: int, hash: Hash) returns (target: Option<Lock>)
    requires ValidLock(base, true, hash) && ProfileOf(base, true) == Some(p) && AllKnown(e.components) && AllKnown(e.auxiliary)
    requires AllItemsOk(e.components) && AllItemsOk(e.auxiliary) ==> Admissible(e, p)
    ensures target.Some? <==> AllItemsOk(e.components) && AllItemsOk(e.auxiliary)
    ensures target.Some? ==> (ValidTransition(base, target.value, hash) <==> Buildable(base, e, p))
    ensures target.Some? && Buildable(base, e, p) ==> ChangesExactly(base, e, p, target.value)
    ensures target.Some? ==> Declares(base, e, now, target.value) && KeepsPlaces(base.components, target.value.components, e.components)
  {
    LegacyIsPreOsaa(base.components.at.Keys, p);
    var cutover := LegacyIdentity(base.components.at.Keys);
    var components := ReplaceListed(Renamed(base.components, cutover), e.components, InstalledComponent(base, p), e.sourceRevision);
    if components.None? { return None; }
    var auxiliary := ReplaceListed(InstalledAuxiliary(base), e.auxiliary, InstalledArtifact(base), e.sourceRevision);
    if auxiliary.None? { return None; }
    AfterReplacing(base, e, p, components.value, auxiliary.value, now, hash);
    ReplacedKeepsPlaces(base.components, e.components, InstalledComponent(base, p), e.sourceRevision, components.value);
    return Some(Assemble(base, e, components.value, auxiliary.value, now, hash));
  }

  method BuildComponentReleaseLock(base: Lock, e: Evidence, now: int, hash: Hash) returns (r: Option<Lock>)
    ensures r.Some? <==> ValidLock(base, true, hash) && Buildable(base, e, ProfileOf(base, true).value)
    ensures r.Some? ==> ValidTransition(base, r.value, hash) && Declares(base, e, now, r.value)
    ensures r.Some? ==> KeepsPlaces(base.components, r.value.components, e.components)
    ensures r.Some? ==> ChangesExactly(base, e, ProfileOf(base, true).value, r.value) && Delivered(base, e, r.value)
  {
    var baseOk := ValidateReleaseLock(base, true, hash);
    if !baseOk { return None; }
    var p := ProfileOf(base, true).value;
    var evidenceOk := CheckEvidence(e, p);
    if !evidenceOk { return None; }
    r := AssembleTarget(base, e, p, now, hash);
    if r.None? { return None; }
    var moved := ValidateReleaseTransition(base, r.value, hash);
    if !moved { return None; }
    TransitionKeepsProfile(base, r.value, hash);
    BuiltIsDelivered(base, e, p, r.value);
  }

  // ---- every component transition, built or written by hand ----

  lemma CutoverIsPreOsaa(base: set<Name>, p: Profile, target: set<Name>, q: Profile)
    requires HasProfile(base, p) && HasProfile(target, q) && Admitted(q, false)
    ensures IsCutover(base, target) <==> p.PreOsaa?
  {
    LegacyIsPreOsaa(base, p);
    assert InProfile(q, OsaaGateway) && InProfile(q, OsaaGovernedAdapter);
  }

  lemma NamesKeepProfile(names: set<Name>, p: Profile, target: set<Name>, q: Profile, changed: seq<Name>)
    requires HasProfile(names, p) && !p.PreOsaa? && HasProfile(target, q) && Admitted(q, false)
    requires names == target || Introduces(Registry, names, target, changed)
    ensures q == Supported(p) && !p.PreOsdst?
  {
    assert forall n :: n in target && n != Registry ==> n in names;
    assert InProfile(q, Osdst) && InProfile(p, Registry) != p.PreRegistry?;
    assert InProfile(q, ConsoleApi) == q.Target? && InProfile(p, ConsoleApi) == p.Target?;
  }

  /**
   * A component transition moves the current profile to itself and every historical base to the canonical one;
   * a base installed before OSDST has no component transition at all.
   */
  lemma TransitionKeepsProfile(base: Lock, target: Lock, hash: Hash)
    requires ValidTransition(base, target, hash) && target.scope.ComponentScope?
    ensures var p := ProfileOf(base, true).value; !p.PreOsdst? && ProfileOf(target, false) == Some(Supported(p))
  {
    var p, q := ProfileOf(base, true).value, ProfileOf(target, false).value;
    var a, b := base.components.at.Keys, target.components.at.Keys;
    CutoverIsPreOsaa(a, p, b, q);
    RenamedProfile(a, p);
    NamesKeepProfile(RenamedKeys(a, p.PreOsaa?), Started(p), b, q, Listed(target.changedComponents));
  }

  // ---- which installed bases can be moved ----

  function Digits(digit: char, length: nat): string { if length == 0 then "" else Digits(digit, length - 1) + [digit] }

  function OtherDigest(d: string): (r: string)
    ensures r != d
  {
    var zeros, ones := Digits('0', 64), Digits('1', 64);
    assert zeros[|zeros| - 1] != ones[|ones| - 1];
    if d == zeros then ones else zeros
  }

  function PlainEntry(n: Name): Component { Component(false, Published(n), Exact(Published(n), Digits('0', 64)), Commit(Digits('0', 40)), Unset) }

  function PlainEntries(keys: seq<Name>): Entries { Entries(keys, map n | n in keys :: PlainEntry(n)) }

  /** An integrated lock of a profile, as an installation leaves it. */
  function InstalledLock(p: Profile, hash: Hash): Lock {
    var draft := Lock(false, true, Edge, BadDigest(""), 0, true, Commit(Digits('0', 40)), LocalEdge, false, ScopeUnset, None, None, None,
                      PlainEntries(ProfileNames(p)), if p.Target? then Some(PlainEntries(AuxiliaryOrder(Target, false))) else None);
    draft.(releaseDigest := Sha256(hash(PayloadOf(draft))))
  }

  lemma PlainEntriesOk(keys: seq<Name>, changed: seq<Name>)
    ensures PlainEntries(keys).at.Keys == Members(keys) && EntriesOk(PlainEntries(keys).at, true, changed, Commit(Digits('0', 40)))
  {
  }

  lemma ProfileIsFound(p: Profile)
    ensures HasProfile(Members(ProfileNames(p)), p)
    ensures InstalledComponentProfile(Members(ProfileNames(p)), true) == Some(p)
  {
  }

  /** Every profile, the retired ones included, has a valid installed base. */
  lemma EveryProfileHasABase(p: Profile, hash: Hash)
    ensures ValidLock(InstalledLock(p, hash), true, hash) && ProfileOf(InstalledLock(p, hash), true) == Some(p)
  {
    var keys := ProfileNames(p);
    PlainEntriesOk(keys, []);
    ProfileIsFound(p);
    if p.Target? {
      PlainEntriesOk(AuxiliaryOrder(Target, false), []);
      assert ConsoleIndexContent !in AuxiliaryOrder(Target, false);
    }
  }

  /** What must be listed to move a base of profile `p`; the console stands for "something". */
  predicate MustList(p: Profile, n: Name) { n.Console? || (p.PreRegistry? && n.Registry?) || (p.PreOsaa? && CanonicalAgent(n)) }

  function Needed(p: Profile): (names: set<Name>)
    ensures forall n :: n in names <==> MustList(p, n)
  {
    {Console} + (if p.PreRegistry? then {Registry} else {}) + (if p.PreOsaa? then {OsaaGateway, OsaaGovernedAdapter} else {})
  }

  /** Another digest than the installed one. */
  function FreshItem(base: Lock, p: Profile, n: Name): Item {
    var installed := InstalledComponent(base, p)(n);
    Item(false, DigestOnly(if installed.Some? && installed.value.image.Exact? then OtherDigest(installed.value.image.digest) else Digits('0', 64)), Unset)
  }

  function FreshEvidence(base: Lock, p: Profile): Evidence {
    Evidence(false, Commit(Digits('1', 40)), map n | n in Needed(p) :: FreshItem(base, p, n), map[])
  }

  lemma FreshItemDiffers(base: Lock, p: Profile, n: Name, revision: Revision)
    ensures ItemOk(n, FreshItem(base, p, n))
    ensures InstalledComponent(base, p)(n) != Some(Construct(n, FreshItem(base, p, n), revision, InstalledComponent(base, p)(n)))
  {
  }

  lemma NeededIsSupported(p: Profile, n: Name)
    requires MustList(p, n)
    ensures InProfile(Supported(p), n)
  {
  }

  lemma FreshEvidenceIsOk(base: Lock, p: Profile)
    ensures EvidenceOk(FreshEvidence(base, p), p)
  {
    var e := FreshEvidence(base, p);
    forall n | n in e.components.Keys ensures InProfile(Supported(p), n) && ItemOk(n, e.components[n]) {
      NeededIsSupported(p, n);
      FreshItemDiffers(base, p, n, e.sourceRevision);
    }
  }

  lemma FreshEvidenceIsAdmissible(base: Lock, p: Profile)
    ensures Admissible(FreshEvidence(base, p), p)
  {
    FreshEvidenceIsOk(base, p);
    assert Console in FreshEvidence(base, p).components;
  }

  lemma FreshEvidenceBuilds(base: Lock, p: Profile)
    requires !p.PreOsdst?
    ensures Buildable(base, FreshEvidence(base, p), p)
  {
    var e := FreshEvidence(base, p);
    FreshEvidenceIsAdmissible(base, p);
    forall n | n in e.components && ItemOk(n, e.components[n])
      ensures InstalledComponent(base, p)(n) != Some(Construct(n, e.components[n], e.sourceRevision, InstalledComponent(base, p)(n)))
    {
      FreshItemDiffers(base, p, n, e.sourceRevision);
    }
  }

  ghost predicate Movable(base: Lock, p: Profile) { exists e: Evidence :: Buildable(base, e, p) }

  /** Some evidence moves a valid base exactly when OSDST is installed in it. */
  lemma MovableIff(base: Lock, hash: Hash)
    requires ValidLock(base, true, hash)
    ensures Movable(base, ProfileOf(base, true).value) <==> !ProfileOf(base, true).value.PreOsdst?
  {
    var p := ProfileOf(base, true).value;
    if !p.PreOsdst? { FreshEvidenceBuilds(base, p); }
  }
}
