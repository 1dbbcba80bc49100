/** Hash-linked dialogue state revisions. */
module DialogueState {
  import opened Outcomes
  import opened JsonText
  import opened CanonicalPrinter

  /** Text to digest; distinct texts are taken to have distinct digests. */
  type Hash = Str -> Str

  ghost predicate Injective(h: Hash) {
    forall a: Str, b: Str :: h(a) == h(b) ==> a == b
  }

  const SCHEMA_KEY: Str := [115, 99, 104, 101, 109, 97]
  const CONVERSATION_KEY: Str := [99, 111, 110, 118, 101, 114, 115, 97, 116, 105, 111, 110, 73, 100]
  const REVISION_KEY: Str := [114, 101, 118, 105, 115, 105, 111, 110]
  const PREVIOUS_KEY: Str := [112, 114, 101, 118, 83, 116, 97, 116, 101, 68, 105, 103, 101, 115, 116]
  const STATE_SCHEMA: Str :=
    [111, 115, 97, 97, 46, 100, 105, 97, 108, 111, 103, 117, 101, 45, 115, 116, 97, 116, 101, 47, 118, 49]

  /** The fixed texts of a digested state, spelled out. */
  lemma TextsSpelledOut()
    ensures Spells(SCHEMA_KEY, "schema") && Spells(CONVERSATION_KEY, "conversationId") && Spells(REVISION_KEY, "revision")
    ensures Spells(PREVIOUS_KEY, "prevStateDigest") && Spells(STATE_SCHEMA, "osaa.dialogue-state/v1")
  {
  }

  predicate Spells(s: Str, w: string) { |s| == |w| && forall i | 0 <= i < |s| :: s[i] == w[i] as int }

  function Decimal(n: nat): Str {
    if n < 10 then [48 + n] else Decimal(n / 10) + [48 + n % 10]
  }

  lemma {:induction false} DecimalWf(n: nat)
    ensures Wf(Num(Decimal(n)))
  {
    if n >= 10 { DecimalWf(n / 10); }
  }

  /** The number a text of digits stands for. */
  function NumberOf(s: Str): int {
    if s == [] then 0
    else
      var digit: int := s[|s| - 1];
      NumberOf(s[..|s| - 1]) * 10 + digit - 48
  }

  lemma {:induction false} DecimalMeans(n: nat)
    ensures NumberOf(Decimal(n)) == n && forall i | 0 <= i < |Decimal(n)| :: 48 <= Decimal(n)[i] <= 57
  {
    DecimalDigits(n);
    if n >= 10 { DecimalMeans(n / 10); } else { assert Decimal(n)[..0] == []; }
  }

  /** The last digit and the text before it are read off a decimal. */
  lemma DecimalDigits(n: nat)
    ensures Decimal(n) != [] && Decimal(n)[|Decimal(n)| - 1] == 48 + n % 10
    ensures Decimal(n)[..|Decimal(n)| - 1] == if n < 10 then [] else Decimal(n / 10)
  {
  }

  lemma {:induction false} DecimalInjective(m: nat, n: nat)
    requires Decimal(m) == Decimal(n)
    ensures m == n
  {
    DecimalDigits(m);
    DecimalDigits(n);
    DecimalDigits(m / 10);
    DecimalDigits(n / 10);
    if m >= 10 && n >= 10 { DecimalInjective(m / 10, n / 10); }
  }

  /** Server-owned fields of one state; the two chain fields are added when it is digested. */
  predicate IsMaterial(m: seq<Field>) {
    Wf(Obj(m)) && !Has(m, REVISION_KEY) && !Has(m, PREVIOUS_KEY)
  }

  function Genesis(conversation: Str): Json {
    Obj([Field(SCHEMA_KEY, Text(STATE_SCHEMA)), Field(CONVERSATION_KEY, Text(conversation)), Field(REVISION_KEY, Num(Decimal(0)))])
  }

  function Linked(material: seq<Field>, revision: nat, previous: Str): Json {
    Obj(material + [Field(REVISION_KEY, Num(Decimal(revision))), Field(PREVIOUS_KEY, Text(previous))])
  }

  function Digest(h: Hash, v: Json): Str { h(CanonicalJson(v)) }

  datatype Head = Head(revision: nat, digest: Str, material: seq<Field>)

  datatype Transition = Transition(baseRevision: nat, nextRevision: nat, previousDigest: Str, stateDigest: Str, material: seq<Field>)

  function BuildTransition(h: Hash, conversation: Str, material: seq<Field>, previous: Option<Head>): Transition {
    var base := if previous.Some? then previous.value.revision else 0;
    var link := if previous.Some? then previous.value.digest else Digest(h, Genesis(conversation));
    Transition(base, base + 1, link, Digest(h, Linked(material, base + 1, link)), material)
  }

  // ----- The chain -----

  function HeadDigest(h: Hash, conversation: Str, log: seq<Transition>): Str {
    if log == [] then Digest(h, Genesis(conversation)) else log[|log| - 1].stateDigest
  }

  predicate LinkAt(h: Hash, t: Transition, i: nat, previous: Str) {
    && IsMaterial(t.material)
    && t.baseRevision == i && t.nextRevision == i + 1
    && t.previousDigest == previous
    && t.stateDigest == Digest(h, Linked(t.material, i + 1, previous))
  }

  /** A gapless chain 1..n from genesis, each link naming the digest before it. */
  ghost predicate Chain(h: Hash, conversation: Str, log: seq<Transition>) {
    forall i | 0 <= i < |log| :: LinkAt(h, log[i], i, HeadDigest(h, conversation, log[..i]))
  }

  lemma LinkedWf(material: seq<Field>, revision: nat, previous: Str)
    requires IsMaterial(material)
    ensures Wf(Linked(material, revision, previous))
  {
    DecimalWf(revision);
    assert |REVISION_KEY| == 8 && |PREVIOUS_KEY| == 15;
    var fs := Linked(material, revision, previous).fields;
    forall i, j | 0 <= i < j < |fs| ensures fs[i].key != fs[j].key {
      assert i < |material| ==> fs[i] == material[i];
      assert j < |material| ==> fs[j] == material[j];
    }
  }

  lemma GenesisWf(conversation: Str)
    ensures Wf(Genesis(conversation))
  {
    DecimalWf(0);
    assert |SCHEMA_KEY| == 6 && |CONVERSATION_KEY| == 14 && |REVISION_KEY| == 8;
  }

  /** Equivalent objects hold equivalent values under a key. */
  lemma EquivAt(fs: seq<Field>, gs: seq<Field>, i: nat, j: nat)
    requires Wf(Obj(fs)) && Wf(Obj(gs)) && Equiv(Obj(fs), Obj(gs))
    requires i < |fs| && j < |gs| && fs[i].key == gs[j].key
    ensures Equiv(fs[i].value, gs[j].value)
  {
    FindUnique(gs, j);
  }

  lemma FindInPrefix(m: seq<Field>, more: seq<Field>, k: Str)
    requires Has(m + more, k) && forall i | 0 <= i < |more| :: more[i].key != k
    ensures Has(m, k) && Find(m, k) == Find(m + more, k)
  {
    var i := Find(m + more, k);
    assert i < |m|;
    assert m[i].key == k;
    if i > 0 {
      assert (m + more)[1..] == m[1..] + more;
      FindInPrefix(m[1..], more, k);
    }
  }

  /** Linked objects are equivalent only when revision, link and material all agree. */
  lemma LinkedEquiv(m: seq<Field>, r: nat, p: Str, n: seq<Field>, s: nat, q: Str)
    requires IsMaterial(m) && IsMaterial(n) && Equiv(Linked(m, r, p), Linked(n, s, q))
    ensures r == s && p == q && Equiv(Obj(m), Obj(n))
  {
    LinkedWf(m, r, p);
    LinkedWf(n, s, q);
    var fs, gs := Linked(m, r, p).fields, Linked(n, s, q).fields;
    EquivAt(fs, gs, |m|, |n|);
    EquivAt(fs, gs, |m| + 1, |n| + 1);
    DecimalInjective(r, s);
    MaterialEquiv(m, fs[|m|..], n, gs[|n|..]);
  }

  lemma MaterialEquiv(m: seq<Field>, f: seq<Field>, n: seq<Field>, g: seq<Field>)
    requires Equiv(Obj(m + f), Obj(n + g)) && |f| == |g|
    requires forall i | 0 <= i < |g| :: !Has(m, g[i].key)
    ensures Equiv(Obj(m), Obj(n))
  {
    forall i | 0 <= i < |m| ensures Has(n, m[i].key) && Equiv(m[i].value, n[Find(n, m[i].key)].value) {
      assert (m + f)[i] == m[i];
      FindInPrefix(n, g, m[i].key);
    }
  }

  lemma GenesisIsNoLink(conversation: Str, m: seq<Field>, r: nat, p: Str)
    requires IsMaterial(m) && r > 0
    ensures !Equiv(Genesis(conversation), Linked(m, r, p))
  {
    LinkedWf(m, r, p);
    GenesisWf(conversation);
    if Equiv(Genesis(conversation), Linked(m, r, p)) {
      EquivAt(Genesis(conversation).fields, Linked(m, r, p).fields, 2, |m|);
      DecimalInjective(0, r);
    }
  }

  lemma HeadsAgree(h: Hash, conversation: Str, p: seq<Transition>, q: seq<Transition>)
    requires Injective(h) && Chain(h, conversation, p) && Chain(h, conversation, q) && p != [] && q != []
    requires p[|p| - 1].stateDigest == q[|q| - 1].stateDigest
    ensures |p| == |q|
    ensures HeadDigest(h, conversation, p[..|p| - 1]) == HeadDigest(h, conversation, q[..|q| - 1])
    ensures Equiv(Obj(p[|p| - 1].material), Obj(q[|q| - 1].material))
  {
    var s, t := p[|p| - 1], q[|q| - 1];
    LinkedWf(s.material, |p|, s.previousDigest);
    LinkedWf(t.material, |q|, t.previousDigest);
    CanonicalJsonDecidesEquiv(Linked(s.material, |p|, s.previousDigest), Linked(t.material, |q|, t.previousDigest));
    LinkedEquiv(s.material, |p|, s.previousDigest, t.material, |q|, t.previousDigest);
  }

  ghost predicate SameRevision(s: Transition, t: Transition) {
    s.stateDigest == t.stateDigest && Equiv(Obj(s.material), Obj(t.material))
  }

  lemma {:induction false} RevisionsAgree(h: Hash, conversation: Str, p: seq<Transition>, q: seq<Transition>, i: nat)
    requires Injective(h) && Chain(h, conversation, p) && Chain(h, conversation, q) && i < |p| && q != []
    requires p[|p| - 1].stateDigest == q[|q| - 1].stateDigest
    ensures |p| == |q| && SameRevision(p[i], q[i])
    decreases |p|
  {
    HeadsAgree(h, conversation, p, q);
    if i < |p| - 1 {
      ChainPrefix(h, conversation, p, |p| - 1);
      ChainPrefix(h, conversation, q, |q| - 1);
      RevisionsAgree(h, conversation, p[..|p| - 1], q[..|q| - 1], i);
    }
  }

  /** With an injective digest, the head of a chain fixes its length and, up to key order, its content. */
  lemma ChainsAgree(h: Hash, conversation: Str, p: seq<Transition>, q: seq<Transition>)
    requires Injective(h) && Chain(h, conversation, p) && Chain(h, conversation, q)
    requires HeadDigest(h, conversation, p) == HeadDigest(h, conversation, q)
    ensures |p| == |q| && forall i | 0 <= i < |p| :: SameRevision(p[i], q[i])
  {
    if p == [] || q == [] {
      if p != [] { HeadsDiffer(h, conversation, p); }
      if q != [] { HeadsDiffer(h, conversation, q); }
    } else {
      forall i | 0 <= i < |p| ensures |p| == |q| && SameRevision(p[i], q[i]) {
        RevisionsAgree(h, conversation, p, q, i);
      }
      RevisionsAgree(h, conversation, p, q, 0);
    }
  }

  lemma ChainPrefix(h: Hash, conversation: Str, log: seq<Transition>, n: nat)
    requires Chain(h, conversation, log) && n <= |log|
    ensures Chain(h, conversation, log[..n])
  {
    forall i | 0 <= i < n ensures LinkAt(h, log[..n][i], i, HeadDigest(h, conversation, log[..n][..i])) {
      assert log[..n][..i] == log[..i];
    }
  }

  lemma HeadsDiffer(h: Hash, conversation: Str, log: seq<Transition>)
    requires Injective(h) && Chain(h, conversation, log) && log != []
    ensures HeadDigest(h, conversation, log) != Digest(h, Genesis(conversation))
  {
    var t := log[|log| - 1];
    LinkedWf(t.material, |log|, t.previousDigest);
    GenesisWf(conversation);
    GenesisIsNoLink(conversation, t.material, |log|, t.previousDigest);
    CanonicalJsonDecidesEquiv(Genesis(conversation), Linked(t.material, |log|, t.previousDigest));
  }

  /** The projection row restates the last link of the log. */
  predicate Projects(projection: Option<Head>, log: seq<Transition>) {
    if log == [] then projection.None?
    else projection == Some(Head(|log|, log[|log| - 1].stateDigest, log[|log| - 1].material))
  }

  lemma ChainSnoc(h: Hash, conversation: Str, log: seq<Transition>, t: Transition)
    requires Chain(h, conversation, log) && LinkAt(h, t, |log|, HeadDigest(h, conversation, log))
    ensures Chain(h, conversation, log + [t])
  {
    var log' := log + [t];
    forall i | 0 <= i < |log'| ensures LinkAt(h, log'[i], i, HeadDigest(h, conversation, log'[..i])) {
      assert log'[..i] == log[..i];
      assert log[..|log|] == log;
    }
  }

  /** A transition built from the projection extends the log's chain, and its head is the next projection. */
  lemma BuildExtendsChain(h: Hash, conversation: Str, log: seq<Transition>, projection: Option<Head>, material: seq<Field>)
    requires Chain(h, conversation, log) && Projects(projection, log) && IsMaterial(material)
    ensures var t := BuildTransition(h, conversation, material, projection);
      && t.baseRevision == |log| && t.previousDigest == HeadDigest(h, conversation, log)
      && Chain(h, conversation, log + [t])
      && Projects(Some(Head(t.nextRevision, t.stateDigest, material)), log + [t])
  {
    BuildLinks(h, conversation, log, projection, material);
    ChainSnoc(h, conversation, log, BuildTransition(h, conversation, material, projection));
  }

  /** A transition built from the projection names its revision and digest, and links to the log's head. */
  lemma BuildLinks(h: Hash, conversation: Str, log: seq<Transition>, projection: Option<Head>, material: seq<Field>)
    requires Projects(projection, log) && IsMaterial(material)
    ensures var t := BuildTransition(h, conversation, material, projection);
      && t.baseRevision == |log| && t.nextRevision == |log| + 1 && t.material == material
      && t.previousDigest == HeadDigest(h, conversation, log)
      && LinkAt(h, t, |log|, HeadDigest(h, conversation, log))
  {
  }
}
