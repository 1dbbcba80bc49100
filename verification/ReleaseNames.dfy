/** Component and artifact names, the closed installed profiles, and the one-way agent identity cutover. */
module ReleaseNames {
  import opened Outcomes

  /** Every name the release contract knows, listed in the order in which the program's sort puts them. */
  datatype Name =
    | Backend | BeszelAgent | BeszelBootstrap | BeszelHub | CliArtifacts | Console | ConsoleApi
    | ConsoleIndexContent | DupaController | ExtensionController | Gitea | GiteaPostgres
    | NotificationDispatcher | OaaGateway | OaaGovernedAdapter | OsShellControl | OsShellRuntime
    | OsaaGateway | OsaaGovernedAdapter | Osdst | Recovery | Registry
    | SupabaseAuth | SupabasePostgres | SupabaseRest | SupabaseStorage
    | Unknown(text: string)

  const Count: nat := 26

  /** Position in the sorted order; unknown names come last. */
  function Rank(n: Name): nat {
    match n
    case Backend => 0 case BeszelAgent => 1 case BeszelBootstrap => 2 case BeszelHub => 3
    case CliArtifacts => 4 case Console => 5 case ConsoleApi => 6 case ConsoleIndexContent => 7
    case DupaController => 8 case ExtensionController => 9 case Gitea => 10 case GiteaPostgres => 11
    case NotificationDispatcher => 12 case OaaGateway => 13 case OaaGovernedAdapter => 14
    case OsShellControl => 15 case OsShellRuntime => 16 case OsaaGateway => 17
    case OsaaGovernedAdapter => 18 case Osdst => 19 case Recovery => 20 case Registry => 21
    case SupabaseAuth => 22 case SupabasePostgres => 23 case SupabaseRest => 24 case SupabaseStorage => 25
    case Unknown(_) => 26
  }

  function NameAt(i: nat): (n: Name)
    requires i < Count
    ensures Rank(n) == i
  {
    match i
    case 0 => Backend case 1 => BeszelAgent case 2 => BeszelBootstrap case 3 => BeszelHub
    case 4 => CliArtifacts case 5 => Console case 6 => ConsoleApi case 7 => ConsoleIndexContent
    case 8 => DupaController case 9 => ExtensionController case 10 => Gitea case 11 => GiteaPostgres
    case 12 => NotificationDispatcher case 13 => OaaGateway case 14 => OaaGovernedAdapter
    case 15 => OsShellControl case 16 => OsShellRuntime case 17 => OsaaGateway
    case 18 => OsaaGovernedAdapter case 19 => Osdst case 20 => Recovery case 21 => Registry
    case 22 => SupabaseAuth case 23 => SupabasePostgres case 24 => SupabaseRest case _ => SupabaseStorage
  }

  lemma NameAtRank(n: Name)
    requires Rank(n) < Count
    ensures NameAt(Rank(n)) == n
  {
  }

  /** The known names picked by `pick`, sorted. */
  function Ascending(pick: Name -> bool, i: nat): seq<Name>
    decreases Count - i
  {
    if i >= Count then []
    else if pick(NameAt(i)) then [NameAt(i)] + Ascending(pick, i + 1)
    else Ascending(pick, i + 1)
  }

  predicate StrictlySorted(s: seq<Name>) {
    forall i, j :: 0 <= i < j < |s| ==> Rank(s[i]) < Rank(s[j])
  }

  predicate Distinct(s: seq<Name>) { forall i, j :: 0 <= i < j < |s| ==> s[i] != s[j] }

  lemma {:induction false} AscendingSound(pick: Name -> bool, i: nat)
    ensures StrictlySorted(Ascending(pick, i))
    ensures forall n :: n in Ascending(pick, i) ==> pick(n) && i <= Rank(n) < Count
    decreases Count - i
  {
    if i < Count { AscendingSound(pick, i + 1); }
  }

  lemma {:induction false} AscendingComplete(pick: Name -> bool, i: nat, n: Name)
    requires pick(n) && i <= Rank(n) < Count
    ensures n in Ascending(pick, i)
    decreases Count - i
  {
    if Rank(n) == i { NameAtRank(n); } else { AscendingComplete(pick, i + 1, n); }
  }

  /** The sorted list of the picked names: strictly increasing and with exactly those members. */
  function Sorted(pick: Name -> bool): (s: seq<Name>)
    ensures StrictlySorted(s)
    ensures forall n :: n in s <==> pick(n) && Rank(n) < Count
  {
    AscendingSound(pick, 0);
    assert forall n :: pick(n) && Rank(n) < Count ==> n in Ascending(pick, 0) by {
      forall n | pick(n) && Rank(n) < Count ensures n in Ascending(pick, 0) { AscendingComplete(pick, 0, n); }
    }
    Ascending(pick, 0)
  }

  lemma SortedDistinct(s: seq<Name>)
    requires StrictlySorted(s)
    ensures Distinct(s)
  {
    forall i, j | 0 <= i < j < |s| ensures s[i] != s[j] { assert Rank(s[i]) < Rank(s[j]); }
  }

  /** A list equals the sort of its own members exactly when it is a strictly sorted list of known names. */
  lemma CanonicalListIff(s: seq<Name>)
    ensures s == Sorted(n => n in s) <==> StrictlySorted(s) && forall i :: 0 <= i < |s| ==> Rank(s[i]) < Count
  {
    var t := Sorted(n => n in s);
    if StrictlySorted(s) && forall i :: 0 <= i < |s| ==> Rank(s[i]) < Count {
      SortedListsAgree(s, t);
    }
  }

  lemma {:induction false} SortedListsAgree(s: seq<Name>, t: seq<Name>)
    requires StrictlySorted(s) && StrictlySorted(t)
    requires forall n :: n in s <==> n in t
    ensures s == t
  {
    assert |s| > 0 ==> s[0] in t;
    assert |t| > 0 ==> t[0] in s;
    if s != [] {
      assert s[0] == t[0];
      assert forall n :: n in s[1..] <==> n in s && n != s[0];
      assert forall n :: n in t[1..] <==> n in t && n != t[0];
      SortedListsAgree(s[1..], t[1..]);
      assert s == [s[0]] + s[1..] && t == [t[0]] + t[1..];
    }
  }

  // ---- profiles ----

  datatype Profile = Target | Canonical | PreOsdst | PreRegistry | PreOsaa

  /** Names common to the current and the historical profile. */
  predicate Shared(n: Name) {
    match n
    case Console | Registry | OsaaGateway | Osdst | OsaaGovernedAdapter | NotificationDispatcher
      | Gitea | SupabasePostgres | SupabaseAuth | SupabaseRest | SupabaseStorage | GiteaPostgres
      | Recovery => true
    case _ => false
  }

  predicate Historical(n: Name) { Shared(n) || n.Backend? || n.DupaController? }

  predicate CanonicalAgent(n: Name) { n.OsaaGateway? || n.OsaaGovernedAdapter? }

  predicate LegacyAgent(n: Name) { n.OaaGateway? || n.OaaGovernedAdapter? }

  predicate InProfile(p: Profile, n: Name) {
    match p
    case Target => Shared(n) || n.ConsoleApi? || n.ExtensionController?
                   || n.BeszelHub? || n.BeszelAgent? || n.BeszelBootstrap?
    case Canonical => Historical(n)
    case PreOsdst => Historical(n) && !n.Osdst?
    case PreRegistry => Historical(n) && !n.Registry?
    case PreOsaa => (Historical(n) && !CanonicalAgent(n)) || LegacyAgent(n)
  }

  lemma ProfileNamesAreKnown(p: Profile, n: Name)
    requires InProfile(p, n)
    ensures Rank(n) < Count
  {
  }

  function ProfileNames(p: Profile): (s: seq<Name>)
    ensures StrictlySorted(s)
    ensures forall n :: n in s <==> InProfile(p, n)
  {
    assert forall n :: InProfile(p, n) ==> Rank(n) < Count by {
      forall n | InProfile(p, n) ensures Rank(n) < Count { ProfileNamesAreKnown(p, n); }
    }
    Sorted(n => InProfile(p, n))
  }

  /** Only an installed base may still be in one of the three retired profiles. */
  predicate Admitted(p: Profile, allowCutover: bool) { allowCutover || p.Target? || p.Canonical? }

  ghost predicate HasProfile(names: set<Name>, p: Profile) {
    forall n :: n in names <==> InProfile(p, n)
  }

  lemma ProfilesDisagree(p: Profile, q: Profile) returns (n: Name)
    requires p != q
    ensures InProfile(p, n) != InProfile(q, n)
  {
    n := if p.Target? || q.Target? then Backend
         else if p.PreOsaa? || q.PreOsaa? then OsaaGateway
         else if p.PreOsdst? || q.PreOsdst? then Osdst
         else Registry;
  }

  /** A component set has at most one profile, so the order in which profiles are tried is immaterial. */
  lemma ProfileIsUnique(names: set<Name>, p: Profile, q: Profile)
    requires HasProfile(names, p) && HasProfile(names, q)
    ensures p == q
  {
    if p != q { var n := ProfilesDisagree(p, q); }
  }

  // ---- counting names ----

  lemma {:induction false} SortedCount(s: seq<Name>)
    requires StrictlySorted(s)
    ensures |set n | n in s| == |s|
  {
    if s != [] {
      var t := s[..|s| - 1];
      SortedCount(t);
      var last := s[|s| - 1];
      assert last !in t;
      assert (set n | n in s) == (set n | n in t) + {last};
    } else {
      assert (set n | n in s) == {};
    }
  }

  lemma {:induction false} SameSizeSubset(a: set<Name>, b: set<Name>)
    requires a <= b && |a| == |b|
    ensures a == b
  {
    if exists x :: x in b && x !in a {
      var x :| x in b && x !in a;
      assert a <= b - {x};
      SubsetCount(a, b - {x});
    }
  }

  lemma {:induction false} SubsetCount(a: set<Name>, b: set<Name>)
    requires a <= b
    ensures |a| <= |b|
  {
    if a != {} {
      var x :| x in a;
      SubsetCount(a - {x}, b - {x});
    }
  }

  /** Equal length and "every expected name is present" together mean set equality. */
  lemma CountedProfile(names: set<Name>, p: Profile)
    ensures HasProfile(names, p)
       <==> |names| == |ProfileNames(p)| && forall i :: 0 <= i < |ProfileNames(p)| ==> ProfileNames(p)[i] in names
  {
    var s := ProfileNames(p);
    var all := set n | n in s;
    SortedCount(s);
    if HasProfile(names, p) {
      assert names == all;
    }
    if |names| == |s| && forall i :: 0 <= i < |s| ==> s[i] in names {
      assert all <= names;
      SameSizeSubset(all, names);
    }
  }

  /** As many names as expected, and every expected one among them. */
  function Matches(names: set<Name>, p: Profile): (r: bool)
    ensures r <==> HasProfile(names, p)
  {
    CountedProfile(names, p);
    var expected := ProfileNames(p);
    |names| == |expected| && forall i :: 0 <= i < |expected| ==> expected[i] in names
  }

  /** The profiles are tried in this order, the retired ones only for an installed base. */
  function FirstProfile(fits: Profile -> bool, allowCutover: bool): Option<Profile> {
    if fits(Target) then Some(Target)
    else if fits(Canonical) then Some(Canonical)
    else if allowCutover && fits(PreOsdst) then Some(PreOsdst)
    else if allowCutover && fits(PreRegistry) then Some(PreRegistry)
    else if allowCutover && fits(PreOsaa) then Some(PreOsaa)
    else None
  }

  lemma FirstProfileDecides(fits: Profile -> bool, allowCutover: bool, p: Profile)
    requires forall a, b :: fits(a) && fits(b) ==> a == b
    ensures FirstProfile(fits, allowCutover) == Some(p) <==> fits(p) && Admitted(p, allowCutover)
  {
  }

  function InstalledComponentProfile(names: set<Name>, allowCutover: bool): (r: Option<Profile>)
    ensures forall p :: r == Some(p) <==> HasProfile(names, p) && Admitted(p, allowCutover)
  {
    var fits := p => Matches(names, p);
    ProfileFound(names, fits, allowCutover);
    FirstProfile(fits, allowCutover)
  }

  lemma ProfileFound(names: set<Name>, fits: Profile -> bool, allowCutover: bool)
    requires forall p :: fits(p) <==> HasProfile(names, p)
    ensures forall p :: FirstProfile(fits, allowCutover) == Some(p) <==> HasProfile(names, p) && Admitted(p, allowCutover)
  {
    forall a, b | fits(a) && fits(b) ensures a == b { ProfileIsUnique(names, a, b); }
    forall p ensures FirstProfile(fits, allowCutover) == Some(p) <==> fits(p) && Admitted(p, allowCutover) {
      FirstProfileDecides(fits, allowCutover, p);
    }
  }

  // ---- the agent identity cutover ----

  function CanonicalName(n: Name): Name {
    if n.OaaGateway? then OsaaGateway else if n.OaaGovernedAdapter? then OsaaGovernedAdapter else n
  }

  function InstalledName(n: Name): Name {
    if n.OsaaGateway? then OaaGateway else if n.OsaaGovernedAdapter? then OaaGovernedAdapter else n
  }

  predicate HasLegacyAgents(names: set<Name>) { OaaGateway in names && OaaGovernedAdapter in names }

  predicate HasCanonicalAgents(names: set<Name>) { OsaaGateway in names && OsaaGovernedAdapter in names }

  predicate LegacyIdentity(names: set<Name>) {
    HasLegacyAgents(names) && OsaaGateway !in names && OsaaGovernedAdapter !in names
  }

  predicate IsCutover(base: set<Name>, target: set<Name>) { HasLegacyAgents(base) && HasCanonicalAgents(target) }

  // ---- auxiliary artifacts ----

  predicate Auxiliary(n: Name) {
    n.CliArtifacts? || n.OsShellControl? || n.OsShellRuntime? || n.ConsoleIndexContent?
  }

  /** The key order an accepted lock must list its auxiliary artifacts in. */
  function AuxiliaryOrder(p: Profile, withIndex: bool): seq<Name> {
    if !p.Target? then [CliArtifacts]
    else if withIndex then [CliArtifacts, OsShellControl, OsShellRuntime, ConsoleIndexContent]
    else [CliArtifacts, OsShellControl, OsShellRuntime]
  }

  /** Controller and runtime move only together with the command line artifacts. */
  predicate ShellSetComplete(names: set<Name>) {
    OsShellControl in names || OsShellRuntime in names ==>
      CliArtifacts in names && OsShellControl in names && OsShellRuntime in names
  }

  // ---- the tables spelled out ----

  /** The eighteen components of the current profile. */
  predicate CurrentComponent(n: Name) {
    match n
    case Console | ConsoleApi | ExtensionController | Registry | OsaaGateway | Osdst | OsaaGovernedAdapter | NotificationDispatcher | Gitea
      | SupabasePostgres | SupabaseAuth | SupabaseRest | SupabaseStorage | GiteaPostgres | Recovery
      | BeszelHub | BeszelAgent | BeszelBootstrap => true
    case _ => false
  }

  /** The fifteen of the profile before it. */
  predicate FormerComponent(n: Name) {
    match n
    case Console | Backend | DupaController | Registry | OsaaGateway | Osdst | OsaaGovernedAdapter | NotificationDispatcher | Gitea
      | SupabasePostgres | SupabaseAuth | SupabaseRest | SupabaseStorage | GiteaPostgres | Recovery => true
    case _ => false
  }

  /** The retired profiles lack OSDST, or the registry, or have the two agents under their old names. */
  lemma ProfilesSpelledOut(n: Name)
    ensures InProfile(Target, n) <==> CurrentComponent(n)
    ensures InProfile(Canonical, n) <==> FormerComponent(n)
    ensures InProfile(PreOsdst, n) <==> FormerComponent(n) && n != Osdst
    ensures InProfile(PreRegistry, n) <==> FormerComponent(n) && n != Registry
    ensures InProfile(PreOsaa, n) <==> n == OaaGateway || n == OaaGovernedAdapter || (FormerComponent(n) && n != OsaaGateway && n != OsaaGovernedAdapter)
  {
  }

  /** A list that moves the shell's controller or its runtime moves both, and the command line artifacts with them. */
  lemma ShellMovesWhole(names: set<Name>)
    requires ShellSetComplete(names)
    ensures OsShellControl in names <==> OsShellRuntime in names
    ensures OsShellRuntime in names ==> CliArtifacts in names
  {
  }
}
