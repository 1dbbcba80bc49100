/**
 * The canonical JSON printer behind digests and structural comparison. Text is a
 * sequence of UTF-16 code units, as in JavaScript.
 */
module JsonText {
  type Unit = c: int | 0 <= c < 0x1_0000
  type Str = seq<Unit>

  predicate High(c: Unit) { 0xD800 <= c < 0xDC00 }
  predicate Low(c: Unit) { 0xDC00 <= c < 0xE000 }

  function HexDigit(d: int): Unit
    requires 0 <= d < 16
  {
    if d < 10 then 48 + d else 87 + d
  }

  function Hex4(c: Unit): Str {
    [HexDigit(c / 16 / 16 / 16), HexDigit(c / 16 / 16 % 16), HexDigit(c / 16 % 16), HexDigit(c % 16)]
  }

  /** The letter of a two-unit escape, or 0 when there is none. */
  function ShortEscape(c: Unit): Unit {
    if c == 34 || c == 92 then c
    else if c == 8 then 98
    else if c == 12 then 102
    else if c == 10 then 110
    else if c == 13 then 114
    else if c == 9 then 116
    else 0
  }

  lemma Regroup(a: Str, b: Str, c: Str, d: Str)
    ensures a + b + c + d == a + (b + c + d)
    ensures a + b + c + d == a + (b + (c + d))
  {
  }

  /** How many units of a non-empty string are written together: a surrogate pair stays whole. */
  function Taken(s: Str): (n: nat)
    requires s != []
    ensures 1 <= n <= |s|
  {
    if High(s[0]) && |s| > 1 && Low(s[1]) then 2 else 1
  }

  /** The text written for those units (section 7 of RFC 8259; a lone surrogate is escaped). */
  function Chunk(s: Str): Str
    requires s != []
  {
    if Taken(s) == 2 then s[..2]
    else if ShortEscape(s[0]) != 0 then [92, ShortEscape(s[0])]
    else if s[0] < 32 || High(s[0]) || Low(s[0]) then [92, 117] + Hex4(s[0])
    else [s[0]]
  }

  function Escape(s: Str): Str {
    if s == [] then [] else Chunk(s) + Escape(s[Taken(s)..])
  }

  function Quote(s: Str): Str {
    [34] + Escape(s) + [34]
  }

  lemma HexDigitInjective(c: int, d: int)
    requires 0 <= c < 16 && 0 <= d < 16 && HexDigit(c) == HexDigit(d)
    ensures c == d
  {
  }

  lemma Hex4Injective(c: Unit, d: Unit)
    requires Hex4(c) == Hex4(d)
    ensures c == d
  {
    var p, q := Hex4(c), Hex4(d);
    assert p[0] == q[0] && p[1] == q[1] && p[2] == q[2] && p[3] == q[3];
    HexDigitInjective(c / 16 / 16 / 16, d / 16 / 16 / 16);
    HexDigitInjective(c / 16 / 16 % 16, d / 16 / 16 % 16);
    HexDigitInjective(c / 16 % 16, d / 16 % 16);
    HexDigitInjective(c % 16, d % 16);
  }

  /** The first two units of a chunk tell its length. */
  function ChunkLength(first: Unit, second: Unit): nat {
    if first == 92 then (if second == 117 then 6 else 2) else if High(first) then 2 else 1
  }

  lemma ChunkShape(s: Str, x: Str)
    requires s != []
    ensures Chunk(s) != [] && Chunk(s)[0] != 34
    ensures |Chunk(s)| == ChunkLength(Chunk(s)[0], if |Chunk(s)| > 1 then Chunk(s)[1] else 0)
    ensures Chunk(s)[0] == 92 || High(Chunk(s)[0]) ==> |Chunk(s)| > 1
  {
  }

  /** A chunk can be read back from the front of any text. */
  lemma ChunkReads(s: Str, t: Str, x: Str, y: Str)
    requires s != [] && t != [] && Chunk(s) + x == Chunk(t) + y
    ensures Taken(s) == Taken(t) && s[..Taken(s)] == t[..Taken(t)] && x == y
  {
    var c, d := Chunk(s), Chunk(t);
    ChunkShape(s, x);
    ChunkShape(t, y);
    assert (c + x)[0] == (d + y)[0];
    if |c| > 1 {
      assert (c + x)[1] == (d + y)[1];
    }
    assert |c| == |d|;
    assert c == (c + x)[..|c|] == d;
    assert x == (c + x)[|c|..] == y;
    if |c| == 6 {
      assert Hex4(s[0]) == c[2..] == Hex4(t[0]);
      Hex4Injective(s[0], t[0]);
    }
  }

  /** The text of a non-empty string cannot be mistaken for the closing quote. */
  lemma EscapeIsNotClosed(s: Str, x: Str)
    requires s != []
    ensures (Escape(s) + [34] + x)[0] != 34
  {
    ChunkShape(s, x);
    assert (Escape(s) + [34] + x)[0] == Chunk(s)[0];
  }

  /** A quoted string can be read back from the front of any text. */
  lemma {:induction false} EscapeReads(s: Str, t: Str, x: Str, y: Str)
    requires Escape(s) + [34] + x == Escape(t) + [34] + y
    ensures s == t && x == y
    decreases |s|
  {
    if s == [] {
      if t != [] { EscapeIsNotClosed(t, y); }
      assert x == (Escape(s) + [34] + x)[1..];
      assert y == (Escape(t) + [34] + y)[1..];
    } else if t == [] {
      EscapeIsNotClosed(s, x);
    } else {
      EscapeReadsOne(s, t, x, y);
      EscapeReads(s[Taken(s)..], t[Taken(t)..], x, y);
      assert s == s[..Taken(s)] + s[Taken(s)..] && t == t[..Taken(t)] + t[Taken(t)..];
    }
  }

  lemma EscapeReadsOne(s: Str, t: Str, x: Str, y: Str)
    requires s != [] && t != [] && Escape(s) + [34] + x == Escape(t) + [34] + y
    ensures Taken(s) == Taken(t) && s[..Taken(s)] == t[..Taken(t)]
    ensures Escape(s[Taken(s)..]) + [34] + x == Escape(t[Taken(t)..]) + [34] + y
  {
    var p, q := Escape(s[Taken(s)..]) + [34] + x, Escape(t[Taken(t)..]) + [34] + y;
    Regroup(Chunk(s), Escape(s[Taken(s)..]), [34], x);
    Regroup(Chunk(t), Escape(t[Taken(t)..]), [34], y);
    ChunkReads(s, t, p, q);
  }

  lemma QuoteReads(s: Str, t: Str, x: Str, y: Str)
    requires Quote(s) + x == Quote(t) + y
    ensures s == t && x == y
  {
    Regroup([34], Escape(s), [34], x);
    Regroup([34], Escape(t), [34], y);
    assert Escape(s) + [34] + x == (Quote(s) + x)[1..];
    assert Escape(t) + [34] + y == (Quote(t) + y)[1..];
    EscapeReads(s, t, x, y);
  }
}

/** Sorting of object keys by UTF-16 code units. */
module KeyOrder {
  import opened JsonText

  predicate Le(a: Str, b: Str) {
    a == [] || (b != [] && (a[0] < b[0] || (a[0] == b[0] && Le(a[1..], b[1..]))))
  }

  predicate Sorted(ks: seq<Str>) {
    forall i, j | 0 <= i < j < |ks| :: Le(ks[i], ks[j])
  }

  lemma {:induction false} LeTotal(a: Str, b: Str)
    ensures Le(a, b) || Le(b, a)
  {
    if a != [] && b != [] { LeTotal(a[1..], b[1..]); }
  }

  lemma {:induction false} LeAntisymmetric(a: Str, b: Str)
    requires Le(a, b) && Le(b, a)
    ensures a == b
  {
    if a != [] && b != [] {
      LeAntisymmetric(a[1..], b[1..]);
      assert a == [a[0]] + a[1..] && b == [b[0]] + b[1..];
    }
  }

  lemma {:induction false} LeTransitive(a: Str, b: Str, c: Str)
    requires Le(a, b) && Le(b, c)
    ensures Le(a, c)
  {
    if a != [] && a[0] == b[0] == c[0] { LeTransitive(a[1..], b[1..], c[1..]); }
  }

  function Insert(k: Str, ks: seq<Str>): seq<Str> {
    if ks == [] || Le(k, ks[0]) then [k] + ks else [ks[0]] + Insert(k, ks[1..])
  }

  function Sort(ks: seq<Str>): seq<Str> {
    if ks == [] then [] else Insert(ks[0], Sort(ks[1..]))
  }

  lemma InsertFront(k: Str, ks: seq<Str>)
    requires Sorted(ks) && (ks == [] || Le(k, ks[0]))
    ensures Sorted([k] + ks)
  {
    forall j | 0 <= j < |ks| ensures Le(k, ks[j]) {
      if j > 0 { LeTransitive(k, ks[0], ks[j]); }
    }
  }

  lemma {:induction false} InsertHolds(k: Str, ks: seq<Str>)
    ensures multiset(Insert(k, ks)) == multiset([k] + ks)
  {
    if ks != [] && !Le(k, ks[0]) {
      InsertHolds(k, ks[1..]);
      assert ks == [ks[0]] + ks[1..];
    }
  }

  lemma {:induction false} InsertSorts(k: Str, ks: seq<Str>)
    requires Sorted(ks)
    ensures Sorted(Insert(k, ks))
  {
    if ks == [] || Le(k, ks[0]) {
      InsertFront(k, ks);
    } else {
      var rest := Insert(k, ks[1..]);
      InsertSorts(k, ks[1..]);
      InsertHolds(k, ks[1..]);
      LeTotal(k, ks[0]);
      if rest != [] {
        assert rest[0] in multiset([k] + ks[1..]);
        assert rest[0] == k || rest[0] in ks[1..];
      }
      InsertFront(ks[0], rest);
    }
  }

  lemma {:induction false} SortKeeps(ks: seq<Str>)
    ensures Sorted(Sort(ks)) && multiset(Sort(ks)) == multiset(ks) && |Sort(ks)| == |ks|
  {
    if ks != [] {
      SortKeeps(ks[1..]);
      InsertSorts(ks[0], Sort(ks[1..]));
      InsertHolds(ks[0], Sort(ks[1..]));
      assert ks == [ks[0]] + ks[1..];
    }
    assert |multiset(Sort(ks))| == |multiset(ks)|;
  }

  lemma TailHolds(p: seq<Str>)
    requires p != []
    ensures multiset(p[1..]) == multiset(p) - multiset{p[0]}
  {
    assert p == [p[0]] + p[1..];
  }

  lemma SameHead(p: seq<Str>, q: seq<Str>)
    requires Sorted(p) && Sorted(q) && multiset(p) == multiset(q) && p != [] && q != []
    ensures p[0] == q[0]
  {
    assert p[0] in multiset(q) && q[0] in multiset(p);
    LeHead(p, q[0]);
    LeHead(q, p[0]);
    LeAntisymmetric(p[0], q[0]);
  }

  /** A sorted list is determined by what it holds. */
  lemma {:induction false} SortedUnique(p: seq<Str>, q: seq<Str>)
    requires Sorted(p) && Sorted(q) && multiset(p) == multiset(q)
    ensures p == q
  {
    assert |multiset(p)| == |p| && |multiset(q)| == |q|;
    if p != [] {
      SameHead(p, q);
      TailHolds(p);
      TailHolds(q);
      SortedUnique(p[1..], q[1..]);
      assert p == [p[0]] + p[1..] && q == [q[0]] + q[1..];
    }
  }

  lemma LeHead(p: seq<Str>, k: Str)
    requires Sorted(p) && k in p
    ensures Le(p[0], k)
  {
    LeTotal(p[0], p[0]);
  }
}

module CanonicalPrinter {
  import opened JsonText
  import opened KeyOrder

  /** A number is given by its JavaScript decimal text, which determines it. */
  datatype Json = Null | Bool(b: bool) | Num(literal: Str) | Text(s: Str) | Arr(items: seq<Json>) | Obj(fields: seq<Field>)
  datatype Field = Field(key: Str, value: Json)

  function Keys(fs: seq<Field>): (ks: seq<Str>)
    ensures |ks| == |fs| && forall i | 0 <= i < |fs| :: ks[i] == fs[i].key
  {
    if fs == [] then [] else [fs[0].key] + Keys(fs[1..])
  }

  predicate Has(fs: seq<Field>, k: Str) {
    exists i :: 0 <= i < |fs| && fs[i].key == k
  }

  predicate AllHad(fs: seq<Field>, ks: seq<Str>) {
    forall i | 0 <= i < |ks| :: Has(fs, ks[i])
  }

  function Find(fs: seq<Field>, k: Str): (i: nat)
    requires Has(fs, k)
    ensures i < |fs| && fs[i].key == k
  {
    if fs[0].key == k then 0 else 1 + Find(fs[1..], k)
  }

  predicate NumberUnit(c: Unit) { 48 <= c <= 57 || c == 43 || c == 45 || c == 46 || c == 101 }

  predicate Wf(v: Json) {
    match v
    case Num(l) => l != [] && forall i | 0 <= i < |l| :: NumberUnit(l[i])
    case Arr(items) => forall i | 0 <= i < |items| :: Wf(items[i])
    case Obj(fields) =>
      && (forall i, j | 0 <= i < j < |fields| :: fields[i].key != fields[j].key)
      && (forall i | 0 <= i < |fields| :: Wf(fields[i].value))
    case _ => true
  }

  const NULL: Str := [110, 117, 108, 108]
  const TRUE: Str := [116, 114, 117, 101]
  const FALSE: Str := [102, 97, 108, 115, 101]

  function CanonicalJson(v: Json): Str
    decreases v, 0
  {
    match v
    case Null => NULL
    case Bool(b) => if b then TRUE else FALSE
    case Num(l) => l
    case Text(s) => Quote(s)
    case Arr(items) => [91] + PrintItems(items) + [93]
    case Obj(fields) =>
      SortedKeysPresent(fields);
      [123] + PrintKeys(fields, Sort(Keys(fields))) + [125]
  }

  function PrintItems(items: seq<Json>): Str
    decreases items, 1
  {
    if items == [] then []
    else CanonicalJson(items[0]) + (if |items| == 1 then [] else [44] + PrintItems(items[1..]))
  }

  function PrintKeys(fields: seq<Field>, ks: seq<Str>): Str
    requires AllHad(fields, ks)
    decreases fields, 1, |ks|
  {
    if ks == [] then []
    else
      Quote(ks[0]) + [58] + CanonicalJson(fields[Find(fields, ks[0])].value)
      + (if |ks| == 1 then [] else [44] + PrintKeys(fields, ks[1..]))
  }

  lemma SortedKeysPresent(fields: seq<Field>)
    ensures AllHad(fields, Sort(Keys(fields)))
  {
    var ks := Sort(Keys(fields));
    SortKeeps(Keys(fields));
    forall i | 0 <= i < |ks| ensures Has(fields, ks[i]) {
      assert ks[i] in multiset(Keys(fields));
      var j :| 0 <= j < |Keys(fields)| && Keys(fields)[j] == ks[i];
      assert fields[j].key == ks[i];
    }
  }

  /** Equality up to the order of object keys, with no mention of sorting or printing. */
  ghost predicate Equiv(a: Json, b: Json)
    decreases a
  {
    match a
    case Arr(xs) => b.Arr? && |xs| == |b.items| && forall i | 0 <= i < |xs| :: Equiv(xs[i], b.items[i])
    case Obj(fs) =>
      && b.Obj? && |fs| == |b.fields|
      && forall i | 0 <= i < |fs| :: Has(b.fields, fs[i].key) && Equiv(fs[i].value, b.fields[Find(b.fields, fs[i].key)].value)
    case _ => a == b
  }

  // ----- Reading a value back from the front of a text -----

  /** What may follow a printed value: nothing, or a unit no number can contain. */
  predicate Ends(x: Str) { x == [] || !NumberUnit(x[0]) }

  lemma Overhang(l: Str, m: Str, x: Str, y: Str)
    requires l + x == m + y && |l| < |m|
    ensures x != [] && x[0] == m[|l|]
  {
    assert (l + x)[|l|] == m[|l|];
  }

  lemma NumberReads(l: Str, m: Str, x: Str, y: Str)
    requires Wf(Num(l)) && Wf(Num(m)) && Ends(x) && Ends(y) && l + x == m + y
    ensures l == m && x == y
  {
    if |l| < |m| {
      Overhang(l, m, x, y);
    } else if |m| < |l| {
      Overhang(m, l, y, x);
    }
    assert l == (l + x)[..|l|] && m == (m + y)[..|m|];
    assert x == (l + x)[|l|..] && y == (m + y)[|m|..];
  }

  /** The first unit of a printed value tells its kind, and is never a bracket or a comma. */
  lemma FirstUnit(v: Json, x: Str)
    requires Wf(v)
    ensures CanonicalJson(v) != [] && (CanonicalJson(v) + x)[0] == CanonicalJson(v)[0]
    ensures var c := CanonicalJson(v)[0];
      match v
      case Null => c == 110
      case Bool(b) => c == if b then 116 else 102
      case Num(_) => NumberUnit(c)
      case Text(_) => c == 34
      case Arr(_) => c == 91
      case Obj(_) => c == 123
  {
  }

  lemma {:induction false} Reads(a: Json, b: Json, x: Str, y: Str)
    requires Wf(a) && Wf(b) && Ends(x) && Ends(y) && CanonicalJson(a) + x == CanonicalJson(b) + y
    ensures Equiv(a, b) && x == y
    decreases a, 0
  {
    FirstUnit(a, x);
    FirstUnit(b, y);
    match a {
      case Num(l) => NumberReads(l, b.literal, x, y);
      case Text(s) => QuoteReads(s, b.s, x, y);
      case Arr(items) =>
        Regroup([91], PrintItems(items), [93], x);
        Regroup([91], PrintItems(b.items), [93], y);
        assert (CanonicalJson(a) + x)[1..] == PrintItems(items) + [93] + x;
        assert (CanonicalJson(b) + y)[1..] == PrintItems(b.items) + [93] + y;
        ReadsItems(items, b.items, x, y);
      case Obj(fields) =>
        SortedKeysPresent(fields);
        SortedKeysPresent(b.fields);
        var ks, ls := Sort(Keys(fields)), Sort(Keys(b.fields));
        Regroup([123], PrintKeys(fields, ks), [125], x);
        Regroup([123], PrintKeys(b.fields, ls), [125], y);
        assert (CanonicalJson(a) + x)[1..] == PrintKeys(fields, ks) + [125] + x;
        assert (CanonicalJson(b) + y)[1..] == PrintKeys(b.fields, ls) + [125] + y;
        ReadsKeys(fields, b.fields, ks, ls, x, y);
        SameKeysEquiv(fields, b.fields, ks);
      case _ =>
        assert CanonicalJson(a) == CanonicalJson(b);
        var n := |CanonicalJson(a)|;
        assert x == (CanonicalJson(a) + x)[n..] && y == (CanonicalJson(b) + y)[n..];
    }
  }

  /** The printed items after the first one, separator included. */
  function MoreItems(items: seq<Json>): Str
    requires items != []
  {
    if |items| == 1 then [] else [44] + PrintItems(items[1..])
  }

  lemma {:induction false} ReadsItems(p: seq<Json>, q: seq<Json>, x: Str, y: Str)
    requires (forall i | 0 <= i < |p| :: Wf(p[i])) && (forall i | 0 <= i < |q| :: Wf(q[i]))
    requires PrintItems(p) + [93] + x == PrintItems(q) + [93] + y
    ensures |p| == |q| && (forall i | 0 <= i < |p| :: Equiv(p[i], q[i])) && x == y
    decreases p, 1
  {
    if p == [] || q == [] {
      if p != [] { FirstItem(p, x); }
      if q != [] { FirstItem(q, y); }
      assert x == (PrintItems(p) + [93] + x)[1..] && y == (PrintItems(q) + [93] + y)[1..];
    } else {
      Regroup(CanonicalJson(p[0]), MoreItems(p), [93], x);
      Regroup(CanonicalJson(q[0]), MoreItems(q), [93], y);
      var x', y' := MoreItems(p) + [93] + x, MoreItems(q) + [93] + y;
      assert x'[0] == if |p| == 1 then 93 else 44;
      assert y'[0] == if |q| == 1 then 93 else 44;
      Reads(p[0], q[0], x', y');
      if |p| == 1 {
        assert x == x'[1..] && y == y'[1..];
      } else {
        Regroup([44], PrintItems(p[1..]), [93], x);
        Regroup([44], PrintItems(q[1..]), [93], y);
        assert x'[1..] == PrintItems(p[1..]) + [93] + x;
        assert y'[1..] == PrintItems(q[1..]) + [93] + y;
        ReadsItems(p[1..], q[1..], x, y);
      }
    }
  }

  lemma FirstItem(p: seq<Json>, x: Str)
    requires p != [] && Wf(p[0])
    ensures (PrintItems(p) + [93] + x)[0] != 93
  {
    FirstUnit(p[0], MoreItems(p) + [93] + x);
    Regroup(CanonicalJson(p[0]), MoreItems(p), [93], x);
  }

  function Val(fs: seq<Field>, k: Str): Json
    requires Has(fs, k)
  {
    fs[Find(fs, k)].value
  }

  /** The printed fields after the first one, separator included. */
  function MoreKeys(fs: seq<Field>, ks: seq<Str>): Str
    requires ks != [] && AllHad(fs, ks)
  {
    if |ks| == 1 then [] else [44] + PrintKeys(fs, ks[1..])
  }

  lemma PrintKeysOpens(fs: seq<Field>, ks: seq<Str>, x: Str)
    requires ks != [] && AllHad(fs, ks)
    ensures PrintKeys(fs, ks) + [125] + x
         == Quote(ks[0]) + ([58] + (CanonicalJson(Val(fs, ks[0])) + (MoreKeys(fs, ks) + [125] + x)))
  {
    var q, c, v, m := Quote(ks[0]), [58], CanonicalJson(Val(fs, ks[0])), MoreKeys(fs, ks);
    assert PrintKeys(fs, ks) == q + c + v + m;
    Regroup(q, c, v, m);
    Regroup(q, c + v + m, [125], x);
    Regroup(c, v, m, [125] + x);
    Regroup(v, m, [125], x);
    assert (c + v + m) + [125] + x == c + (v + (m + [125] + x));
  }

  lemma FirstKey(fs: seq<Field>, ks: seq<Str>, x: Str)
    requires ks != [] && AllHad(fs, ks)
    ensures (PrintKeys(fs, ks) + [125] + x)[0] == 34
  {
    PrintKeysOpens(fs, ks, x);
  }

  ghost predicate ValuesWf(fs: seq<Field>) { forall i | 0 <= i < |fs| :: Wf(fs[i].value) }

  /** When one of the key lists is empty, the closing brace tells that the other one is too. */
  lemma NoKeys(fs: seq<Field>, gs: seq<Field>, ks: seq<Str>, ls: seq<Str>, x: Str, y: Str)
    requires AllHad(fs, ks) && AllHad(gs, ls) && (ks == [] || ls == [])
    requires PrintKeys(fs, ks) + [125] + x == PrintKeys(gs, ls) + [125] + y
    ensures ks == [] && ls == [] && x == y
  {
    if ks != [] { FirstKey(fs, ks, x); }
    if ls != [] { FirstKey(gs, ls, y); }
    assert x == (PrintKeys(fs, ks) + [125] + x)[1..] && y == (PrintKeys(gs, ls) + [125] + y)[1..];
  }

  /** What follows the first value tells whether another field comes, and then continues with it. */
  lemma AfterFirst(fs: seq<Field>, ks: seq<Str>, x: Str)
    requires ks != [] && AllHad(fs, ks)
    ensures var x' := MoreKeys(fs, ks) + [125] + x;
      x' != [] && x'[0] == (if |ks| == 1 then 125 else 44)
      && x'[1..] == if |ks| == 1 then x else PrintKeys(fs, ks[1..]) + [125] + x
  {
    if |ks| > 1 { Regroup([44], PrintKeys(fs, ks[1..]), [125], x); }
  }

  /** The first key is read off, and its value's text begins both remainders. */
  lemma ReadsFirstKey(fs: seq<Field>, gs: seq<Field>, ks: seq<Str>, ls: seq<Str>, x: Str, y: Str)
    requires AllHad(fs, ks) && AllHad(gs, ls) && ks != [] && ls != []
    requires PrintKeys(fs, ks) + [125] + x == PrintKeys(gs, ls) + [125] + y
    ensures ks[0] == ls[0]
    ensures CanonicalJson(Val(fs, ks[0])) + (MoreKeys(fs, ks) + [125] + x) == CanonicalJson(Val(gs, ls[0])) + (MoreKeys(gs, ls) + [125] + y)
  {
    PrintKeysOpens(fs, ks, x);
    PrintKeysOpens(gs, ls, y);
    var p := CanonicalJson(Val(fs, ks[0])) + (MoreKeys(fs, ks) + [125] + x);
    var q := CanonicalJson(Val(gs, ls[0])) + (MoreKeys(gs, ls) + [125] + y);
    QuoteReads(ks[0], ls[0], [58] + p, [58] + q);
    assert p == ([58] + p)[1..] && q == ([58] + q)[1..];
  }

  lemma {:induction false} ReadsKeys(fs: seq<Field>, gs: seq<Field>, ks: seq<Str>, ls: seq<Str>, x: Str, y: Str)
    requires AllHad(fs, ks) && AllHad(gs, ls) && ValuesWf(fs) && ValuesWf(gs)
    requires PrintKeys(fs, ks) + [125] + x == PrintKeys(gs, ls) + [125] + y
    ensures ks == ls && x == y && forall i | 0 <= i < |ks| :: Equiv(Val(fs, ks[i]), Val(gs, ks[i]))
    decreases fs, 1, |ks|
  {
    if ks == [] || ls == [] {
      NoKeys(fs, gs, ks, ls, x, y);
    } else {
      ReadsFirstKey(fs, gs, ks, ls, x, y);
      AfterFirst(fs, ks, x);
      AfterFirst(gs, ls, y);
      var x', y' := MoreKeys(fs, ks) + [125] + x, MoreKeys(gs, ls) + [125] + y;
      Reads(Val(fs, ks[0]), Val(gs, ls[0]), x', y');
      if |ks| > 1 { ReadsKeys(fs, gs, ks[1..], ls[1..], x, y); }
      FirstAndRest(fs, gs, ks, ls);
    }
  }

  lemma FirstAndRest(fs: seq<Field>, gs: seq<Field>, ks: seq<Str>, ls: seq<Str>)
    requires ks != [] && ls != [] && ks[0] == ls[0] && ks[1..] == ls[1..] && AllHad(fs, ks) && AllHad(gs, ls)
    requires Equiv(Val(fs, ks[0]), Val(gs, ks[0])) && forall i | 0 <= i < |ks| - 1 :: Equiv(Val(fs, ks[1..][i]), Val(gs, ks[1..][i]))
    ensures ks == ls && forall i | 0 <= i < |ks| :: Equiv(Val(fs, ks[i]), Val(gs, ks[i]))
  {
    assert ks == [ks[0]] + ks[1..] && ls == [ls[0]] + ls[1..];
    forall i | 0 < i < |ks| ensures Equiv(Val(fs, ks[i]), Val(gs, ks[i])) { assert ks[i] == ks[1..][i - 1]; }
  }

  ghost predicate Distinct(fs: seq<Field>) { forall i, j | 0 <= i < j < |fs| :: fs[i].key != fs[j].key }

  lemma FindUnique(fs: seq<Field>, i: nat)
    requires Distinct(fs) && i < |fs|
    ensures Has(fs, fs[i].key) && Find(fs, fs[i].key) == i
  {
  }

  lemma SameKeysEquiv(fs: seq<Field>, gs: seq<Field>, ks: seq<Str>)
    requires Distinct(fs) && ks == Sort(Keys(fs)) == Sort(Keys(gs)) && AllHad(fs, ks) && AllHad(gs, ks)
    requires forall i | 0 <= i < |ks| :: Equiv(Val(fs, ks[i]), Val(gs, ks[i]))
    ensures Equiv(Obj(fs), Obj(gs))
  {
    SortKeeps(Keys(fs));
    SortKeeps(Keys(gs));
    forall i | 0 <= i < |fs|
      ensures Has(gs, fs[i].key) && Equiv(fs[i].value, gs[Find(gs, fs[i].key)].value)
    {
      FindUnique(fs, i);
      assert Keys(fs)[i] in multiset(ks);
      var j :| 0 <= j < |ks| && ks[j] == fs[i].key;
      assert Equiv(Val(fs, ks[j]), Val(gs, ks[j]));
    }
  }

  // ----- Equivalent values print alike -----

  lemma DistinctKeys(ks: seq<Str>)
    requires forall i, j | 0 <= i < j < |ks| :: ks[i] != ks[j]
    ensures forall k | k in ks :: multiset(ks)[k] == 1
  {
    if ks != [] {
      DistinctKeys(ks[1..]);
      assert ks == [ks[0]] + ks[1..];
    }
  }

  lemma SameBag(p: seq<Str>, q: seq<Str>)
    requires |p| == |q| && (forall i, j | 0 <= i < j < |p| :: p[i] != p[j])
    requires forall i | 0 <= i < |p| :: p[i] in q
    ensures multiset(p) == multiset(q)
  {
    DistinctKeys(p);
    assert forall k | k in multiset(p) :: multiset(p)[k] == 1 <= multiset(q)[k];
    assert multiset(p) <= multiset(q);
    assert |multiset(q) - multiset(p)| == |multiset(q)| - |multiset(p)| == 0;
    assert multiset(q) == multiset(p) + (multiset(q) - multiset(p));
  }

  lemma EquivSameKeys(fs: seq<Field>, gs: seq<Field>)
    requires Distinct(fs) && Equiv(Obj(fs), Obj(gs))
    ensures Sort(Keys(fs)) == Sort(Keys(gs))
  {
    forall i | 0 <= i < |fs| ensures Keys(fs)[i] in Keys(gs) {
      assert Keys(gs)[Find(gs, fs[i].key)] == fs[i].key;
    }
    SameBag(Keys(fs), Keys(gs));
    SortKeeps(Keys(fs));
    SortKeeps(Keys(gs));
    SortedUnique(Sort(Keys(fs)), Sort(Keys(gs)));
  }

  lemma {:induction false} PrintsAlike(a: Json, b: Json)
    requires Wf(a) && Wf(b) && Equiv(a, b)
    ensures CanonicalJson(a) == CanonicalJson(b)
    decreases a, 0
  {
    match a {
      case Arr(items) => ItemsAlike(items, b.items);
      case Obj(fields) =>
        EquivSameKeys(fields, b.fields);
        SortedKeysPresent(fields);
        SortedKeysPresent(b.fields);
        KeysAlike(fields, b.fields, Sort(Keys(fields)));
      case _ =>
    }
  }

  lemma {:induction false} ItemsAlike(p: seq<Json>, q: seq<Json>)
    requires (forall i | 0 <= i < |p| :: Wf(p[i])) && (forall i | 0 <= i < |q| :: Wf(q[i]))
    requires |p| == |q| && forall i | 0 <= i < |p| :: Equiv(p[i], q[i])
    ensures PrintItems(p) == PrintItems(q)
    decreases p, 1
  {
    if p != [] {
      PrintsAlike(p[0], q[0]);
      ItemsAlike(p[1..], q[1..]);
    }
  }

  lemma {:induction false} KeysAlike(fs: seq<Field>, gs: seq<Field>, ks: seq<Str>)
    requires AllHad(fs, ks) && AllHad(gs, ks) && ValuesWf(fs) && ValuesWf(gs) && Distinct(fs) && Equiv(Obj(fs), Obj(gs))
    ensures PrintKeys(fs, ks) == PrintKeys(gs, ks)
    decreases fs, 1, |ks|
  {
    if ks != [] {
      var i := Find(fs, ks[0]);
      assert Equiv(fs[i].value, gs[Find(gs, fs[i].key)].value);
      PrintsAlike(fs[i].value, Val(gs, ks[0]));
      KeysAlike(fs, gs, ks[1..]);
    }
  }

  /** Two values print the same text exactly when they are equal up to the order of object keys. */
  lemma CanonicalJsonDecidesEquiv(a: Json, b: Json)
    requires Wf(a) && Wf(b)
    ensures CanonicalJson(a) == CanonicalJson(b) <==> Equiv(a, b)
  {
    if CanonicalJson(a) == CanonicalJson(b) {
      Reads(a, b, [], []);
    }
    if Equiv(a, b) {
      PrintsAlike(a, b);
    }
  }

  predicate SameComponent(left: Json, right: Json) {
    CanonicalJson(left) == CanonicalJson(right)
  }

  /** Reordering the fields of an object, anywhere, is invisible to the comparison. */
  lemma SameComponentIgnoresKeyOrder(fs: seq<Field>, gs: seq<Field>)
    requires Wf(Obj(fs)) && Wf(Obj(gs)) && multiset(fs) == multiset(gs)
    ensures SameComponent(Obj(fs), Obj(gs))
  {
    assert |multiset(fs)| == |fs| && |multiset(gs)| == |gs|;
    forall i | 0 <= i < |fs|
      ensures Has(gs, fs[i].key) && Equiv(fs[i].value, gs[Find(gs, fs[i].key)].value)
    {
      assert fs[i] in multiset(gs);
      var j :| 0 <= j < |gs| && gs[j] == fs[i];
      FindUnique(gs, j);
      EquivReflexive(fs[i].value);
    }
    PrintsAlike(Obj(fs), Obj(gs));
  }

  lemma EquivReflexive(v: Json)
    requires Wf(v)
    ensures Equiv(v, v)
  {
    Reads(v, v, [], []);
  }
}
