/** A reader of JSON text (RFC 8259) that knows nothing of the printer, and what it makes of printed values. */
module JsonReading {
  import opened Outcomes
  import opened JsonText
  import opened KeyOrder
  import opened CanonicalPrinter

  // ----- Strings -----

  function HexValue(c: Unit): Option<int> {
    if 48 <= c <= 57 then Some(c - 48) else if 97 <= c <= 102 then Some(c - 87) else if 65 <= c <= 70 then Some(c - 55) else None
  }

  /** Four hexadecimal digits. */
  function ReadHex4(t: Str): (c: Option<Unit>)
    requires |t| == 4
  {
    var a, b, c, d := HexValue(t[0]), HexValue(t[1]), HexValue(t[2]), HexValue(t[3]);
    if a.Some? && b.Some? && c.Some? && d.Some? then
      HexRange(t);
      Some(((a.value * 16 + b.value) * 16 + c.value) * 16 + d.value)
    else None
  }

  lemma HexRange(t: Str)
    ensures forall c: Unit | HexValue(c).Some? :: 0 <= HexValue(c).value < 16
  {
  }

  /** The unit a two-unit escape stands for (section 7 of RFC 8259). */
  function ReadEscape(c: Unit): Option<Unit> {
    if c == 34 || c == 92 || c == 47 then Some(c)
    else if c == 98 then Some(8)
    else if c == 102 then Some(12)
    else if c == 110 then Some(10)
    else if c == 114 then Some(13)
    else if c == 116 then Some(9)
    else None
  }

  /** The next unit of a string and what follows it; nothing at the closing quote or at a control character. */
  function ReadUnit(t: Str): (r: Option<(Unit, Str)>)
    ensures r.Some? ==> |r.value.1| < |t|
  {
    if t == [] || t[0] == 34 || t[0] < 32 then None
    else if t[0] != 92 then Some((t[0], t[1..]))
    else if |t| >= 6 && t[1] == 117 then
      var c := ReadHex4(t[2..6]);
      if c.Some? then Some((c.value, t[6..])) else None
    else if |t| >= 2 && ReadEscape(t[1]).Some? then Some((ReadEscape(t[1]).value, t[2..]))
    else None
  }

  /** A string from after its opening quote to its closing one. */
  function ReadString(t: Str): (r: Option<(Str, Str)>)
    ensures r.Some? ==> |r.value.1| < |t|
    decreases |t|
  {
    if t != [] && t[0] == 34 then Some(([], t[1..]))
    else
      var u := ReadUnit(t);
      if u.None? then None
      else
        var rest := ReadString(u.value.1);
        if rest.None? then None else Some(([u.value.0] + rest.value.0, rest.value.1))
  }

  /** The four digits of an escape are written in lower case. */
  lemma HexIsLower(d: int)
    requires 0 <= d < 16
    ensures HexDigit(d) == "0123456789abcdef"[d] as int && HexValue(HexDigit(d)) == Some(d)
  {
  }

  lemma DigitsAddUp(c: Unit)
    ensures ((c / 16 / 16 / 16 * 16 + c / 16 / 16 % 16) * 16 + c / 16 % 16) * 16 + c % 16 == c
  {
  }

  lemma Hex4Reads(c: Unit)
    ensures ReadHex4(Hex4(c)) == Some(c)
  {
    HexIsLower(c / 16 / 16 / 16);
    HexIsLower(c / 16 / 16 % 16);
    HexIsLower(c / 16 % 16);
    HexIsLower(c % 16);
    DigitsAddUp(c);
  }

  /** A chunk of one unit is read as that unit. */
  lemma OneUnitReads(s: Str, x: Str)
    requires s != [] && Taken(s) == 1
    ensures ReadUnit(Chunk(s) + x) == Some((s[0], x)) && (Chunk(s) + x)[0] != 34
  {
    var t := Chunk(s) + x;
    if ShortEscape(s[0]) != 0 {
      assert t[2..] == x;
    } else if s[0] < 32 || High(s[0]) || Low(s[0]) {
      Hex4Reads(s[0]);
      assert t[2..6] == Hex4(s[0]) && t[6..] == x;
    } else {
      assert t[1..] == x;
    }
  }

  /** A surrogate pair is read unit by unit. */
  lemma PairReads(s: Str, x: Str)
    requires s != [] && Taken(s) == 2
    ensures ReadUnit(Chunk(s) + x) == Some((s[0], [s[1]] + x)) && ReadUnit([s[1]] + x) == Some((s[1], x))
    ensures (Chunk(s) + x)[0] != 34 && ([s[1]] + x)[0] != 34
  {
    assert (Chunk(s) + x)[1..] == [s[1]] + x;
    assert ([s[1]] + x)[1..] == x;
  }

  lemma {:induction false} EscapeIsRead(s: Str, x: Str)
    ensures ReadString(Escape(s) + [34] + x) == Some((s, x))
    decreases |s|
  {
    var t := Escape(s) + [34] + x;
    if s == [] {
      assert t[1..] == x;
    } else {
      var rest := s[Taken(s)..];
      Regroup(Chunk(s), Escape(rest), [34], x);
      EscapeIsRead(rest, x);
      if Taken(s) == 1 {
        OneUnitReads(s, Escape(rest) + [34] + x);
        assert s == [s[0]] + rest;
      } else {
        PairReads(s, Escape(rest) + [34] + x);
        assert s == [s[0]] + ([s[1]] + rest);
      }
    }
  }

  /** Any string comes back from its quoted form. */
  lemma QuoteIsRead(s: Str, x: Str)
    ensures var t := Quote(s) + x; t != [] && t[0] == 34 && ReadString(t[1..]) == Some((s, x))
  {
    EscapeIsRead(s, x);
    assert (Quote(s) + x)[1..] == Escape(s) + [34] + x;
  }

  /** Only quotes, backslashes, control characters and lone surrogates are escaped, the common ones by a letter. */
  lemma EscapesOnlyWhatItMust(s: Str)
    requires s != [] && Taken(s) == 1
    ensures Chunk(s) == [s[0]] <==> s[0] != 34 && s[0] != 92 && s[0] >= 32 && !(0xD800 <= s[0] <= 0xDFFF)
    ensures |Chunk(s)| == 2 <==> s[0] == 34 || s[0] == 92 || 8 <= s[0] <= 10 || 12 <= s[0] <= 13
  {
  }

  // ----- Values -----

  /** The text begins with this word. */
  predicate Opens(t: Str, word: string) { |word| <= |t| && forall i | 0 <= i < |word| :: t[i] == word[i] as int }

  /** A number is the longest run of units that numbers are written in. */
  function NumberLength(t: Str): (n: nat)
    ensures n <= |t| && (forall i | 0 <= i < n :: NumberUnit(t[i])) && (n < |t| ==> !NumberUnit(t[n]))
    ensures t != [] && NumberUnit(t[0]) ==> n > 0
  {
    if t == [] || !NumberUnit(t[0]) then 0 else 1 + NumberLength(t[1..])
  }

  /** The value at the front of a text, and what follows it. */
  function ReadValue(t: Str): (r: Option<(Json, Str)>)
    ensures r.Some? ==> |r.value.1| < |t|
    decreases |t|, 0
  {
    if t == [] then None
    else if t[0] == 34 then
      var s := ReadString(t[1..]);
      if s.Some? then Some((Text(s.value.0), s.value.1)) else None
    else if t[0] == 91 then
      if Opens(t[1..], "]") then Some((Arr([]), t[2..]))
      else
        var items := ReadItems(t[1..]);
        if items.Some? then Some((Arr(items.value.0), items.value.1)) else None
    else if t[0] == 123 then
      if Opens(t[1..], "}") then Some((Obj([]), t[2..]))
      else
        var fields := ReadFields(t[1..]);
        if fields.Some? then Some((Obj(fields.value.0), fields.value.1)) else None
    else if NumberUnit(t[0]) then Some((Num(t[..NumberLength(t)]), t[NumberLength(t)..]))
    else if Opens(t, "null") then Some((Null, t[4..]))
    else if Opens(t, "true") then Some((Bool(true), t[4..]))
    else if Opens(t, "false") then Some((Bool(false), t[5..]))
    else None
  }

  /** Values up to the closing bracket, at least one. */
  function ReadItems(t: Str): (r: Option<(seq<Json>, Str)>)
    ensures r.Some? ==> |r.value.1| < |t|
    decreases |t|, 1
  {
    var v := ReadValue(t);
    if v.None? then None
    else if Opens(v.value.1, "]") then Some(([v.value.0], v.value.1[1..]))
    else if Opens(v.value.1, ",") then
      var more := ReadItems(v.value.1[1..]);
      if more.Some? then Some(([v.value.0] + more.value.0, more.value.1)) else None
    else None
  }

  /** Named values up to the closing brace, at least one. */
  function ReadFields(t: Str): (r: Option<(seq<Field>, Str)>)
    ensures r.Some? ==> |r.value.1| < |t|
    decreases |t|, 1
  {
    var k := if Opens(t, "\"") then ReadString(t[1..]) else None;
    if k.None? || !Opens(k.value.1, ":") then None
    else
      var v := ReadValue(k.value.1[1..]);
      if v.None? then None
      else
        var f := Field(k.value.0, v.value.0);
        if Opens(v.value.1, "}") then Some(([f], v.value.1[1..]))
        else if Opens(v.value.1, ",") then
          var more := ReadFields(v.value.1[1..]);
          if more.Some? then Some(([f] + more.value.0, more.value.1)) else None
        else None
  }

  /** By code units: a proper prefix, or smaller at the first difference. */
  ghost predicate Precedes(a: Str, b: Str) {
    a < b || exists i :: 0 <= i < |a| && i < |b| && a[..i] == b[..i] && a[i] < b[i]
  }

  lemma {:induction false} LeIsLexicographic(a: Str, b: Str)
    ensures Le(a, b) <==> a == b || Precedes(a, b)
  {
    if a != [] && b != [] && a[0] == b[0] {
      LeIsLexicographic(a[1..], b[1..]);
      assert a == [a[0]] + a[1..] && b == [b[0]] + b[1..];
      PrecedesTail(a, b);
    } else if a != [] && b != [] && a[0] < b[0] {
      assert a[..0] == b[..0];
    }
  }

  lemma PrecedesTail(a: Str, b: Str)
    requires a != [] && b != [] && a[0] == b[0]
    ensures Precedes(a, b) <==> Precedes(a[1..], b[1..])
  {
    var c, d := a[1..], b[1..];
    assert a == [a[0]] + c && b == [a[0]] + d;
    if i :| 0 <= i < |a| && i < |b| && a[..i] == b[..i] && a[i] < b[i] {
      assert i > 0 && c[..i - 1] == a[..i][1..] && d[..i - 1] == b[..i][1..] && c[i - 1] < d[i - 1];
    }
    if i :| 0 <= i < |c| && i < |d| && c[..i] == d[..i] && c[i] < d[i] {
      assert a[..i + 1] == [a[0]] + c[..i] && b[..i + 1] == [a[0]] + d[..i] && a[i + 1] < b[i + 1];
    }
  }

  /** Every object lists its keys in strictly ascending order, all the way down. */
  ghost predicate Ascends(v: Json) {
    match v
    case Arr(items) => forall i | 0 <= i < |items| :: Ascends(items[i])
    case Obj(fields) =>
      (forall i, j | 0 <= i < j < |fields| :: Precedes(fields[i].key, fields[j].key)) && (forall i | 0 <= i < |fields| :: Ascends(fields[i].value))
    case _ => true
  }

  lemma NumberIsRead(l: Str, x: Str)
    requires Wf(Num(l)) && Ends(x)
    ensures ReadValue(l + x) == Some((Num(l), x))
  {
    var t := l + x;
    var n := NumberLength(t);
    assert forall i | 0 <= i < |l| :: t[i] == l[i];
    assert x != [] ==> t[|l|] == x[0];
    assert n == |l|;
    assert t[..n] == l && t[n..] == x;
  }

  lemma NullIsRead(x: Str)
    ensures ReadValue(CanonicalJson(Null) + x) == Some((Null, x))
  {
    assert (NULL + x)[4..] == x;
  }

  lemma BoolIsRead(b: bool, x: Str)
    ensures ReadValue(CanonicalJson(Bool(b)) + x) == Some((Bool(b), x))
  {
    assert (TRUE + x)[4..] == x && (FALSE + x)[5..] == x;
    var t := CanonicalJson(Bool(b)) + x;
    assert t[0] == CanonicalJson(Bool(b))[0];
    assert if b then Opens(t, "true") else Opens(t, "false");
  }

  lemma BracketReads(t: Str, ws: seq<Json>, x: Str)
    requires |t| > 1 && t[0] == 91 && t[1] != 93 && ReadItems(t[1..]) == Some((ws, x))
    ensures ReadValue(t) == Some((Arr(ws), x))
  {
  }

  lemma BraceReads(t: Str, gs: seq<Field>, x: Str)
    requires |t| > 1 && t[0] == 123 && t[1] != 125 && ReadFields(t[1..]) == Some((gs, x))
    ensures ReadValue(t) == Some((Obj(gs), x))
  {
  }

  /** One named value, with the rest of the fields already read. */
  lemma FieldReads(t: Str, k: Str, value: Str, w: Json, after: Str, more: seq<Field>, x: Str)
    requires t != [] && t[0] == 34 && ReadString(t[1..]) == Some((k, [58] + value)) && ReadValue(value) == Some((w, after))
    requires after != [] && (if after[0] == 125 then more == [] && after[1..] == x
                             else after[0] == 44 && ReadFields(after[1..]) == Some((more, x)))
    ensures ReadFields(t) == Some(([Field(k, w)] + more, x))
  {
    assert ([58] + value)[1..] == value;
    assert [Field(k, w)] + [] == [Field(k, w)];
  }

  /** What the printer writes is read back: the same value, with every object's keys in ascending order. */
  lemma {:induction false} ValueIsRead(v: Json, x: Str) returns (w: Json)
    requires Wf(v) && Ends(x)
    ensures ReadValue(CanonicalJson(v) + x) == Some((w, x)) && Equiv(v, w) && Ascends(w)
    decreases v, 0
  {
    match v
    case Null => w := v; NullIsRead(x);
    case Bool(b) => w := v; BoolIsRead(b, x);
    case Num(l) => w := v; NumberIsRead(l, x);
    case Text(s) => w := v; QuoteIsRead(s, x);
    case Arr(items) =>
      var ws := ArrayIsRead(items, x);
      w := Arr(ws);
    case Obj(fields) =>
      var gs := ObjectIsRead(fields, x);
      w := Obj(gs);
  }

  lemma {:induction false} ArrayIsRead(items: seq<Json>, x: Str) returns (ws: seq<Json>)
    requires Wf(Arr(items))
    ensures ReadValue(CanonicalJson(Arr(items)) + x) == Some((Arr(ws), x))
    ensures |ws| == |items| && forall i | 0 <= i < |items| :: Equiv(items[i], ws[i]) && Ascends(ws[i])
    decreases items, 2
  {
    var t := CanonicalJson(Arr(items)) + x;
    Regroup([91], PrintItems(items), [93], x);
    assert t[1..] == PrintItems(items) + [93] + x;
    if items == [] {
      ws := [];
      assert t[2..] == x;
    } else {
      FirstItem(items, x);
      ws := ItemsAreRead(items, x);
      assert t[1] == t[1..][0];
      BracketReads(t, ws, x);
    }
  }

  lemma {:induction false} ItemsAreRead(items: seq<Json>, x: Str) returns (ws: seq<Json>)
    requires items != [] && forall i | 0 <= i < |items| :: Wf(items[i])
    ensures ReadItems(PrintItems(items) + [93] + x) == Some((ws, x))
    ensures |ws| == |items| && forall i | 0 <= i < |items| :: Equiv(items[i], ws[i]) && Ascends(ws[i])
    decreases items, 1
  {
    var after := MoreItems(items) + [93] + x;
    Regroup(CanonicalJson(items[0]), MoreItems(items), [93], x);
    var w := ValueIsRead(items[0], after);
    if |items| == 1 {
      ws := [w];
      assert after[1..] == x;
    } else {
      Regroup([44], PrintItems(items[1..]), [93], x);
      assert after[1..] == PrintItems(items[1..]) + [93] + x;
      var more := ItemsAreRead(items[1..], x);
      ws := [w] + more;
    }
  }

  lemma {:induction false} ObjectIsRead(fields: seq<Field>, x: Str) returns (gs: seq<Field>)
    requires Wf(Obj(fields))
    ensures ReadValue(CanonicalJson(Obj(fields)) + x) == Some((Obj(gs), x)) && Equiv(Obj(fields), Obj(gs)) && Ascends(Obj(gs))
    decreases fields, 2
  {
    SortedKeysPresent(fields);
    SortKeeps(Keys(fields));
    var ks := Sort(Keys(fields));
    var t := CanonicalJson(Obj(fields)) + x;
    Regroup([123], PrintKeys(fields, ks), [125], x);
    assert t[1..] == PrintKeys(fields, ks) + [125] + x;
    if ks == [] {
      gs := [];
      assert t[2..] == x && |fields| == 0;
    } else {
      FirstKey(fields, ks, x);
      gs := FieldsAreRead(fields, ks, x);
      assert t[1] == t[1..][0];
      BraceReads(t, gs, x);
      SortedFieldsAscend(fields, ks, gs);
      SortedFieldsEquiv(fields, ks, gs);
    }
  }

  /** The read fields answer to the keys, one by one. */
  ghost predicate Answer(fs: seq<Field>, ks: seq<Str>, gs: seq<Field>)
    requires AllHad(fs, ks)
  {
    |gs| == |ks| && forall i | 0 <= i < |ks| :: gs[i].key == ks[i] && Equiv(Val(fs, ks[i]), gs[i].value) && Ascends(gs[i].value)
  }

  lemma FirstAnswers(fs: seq<Field>, ks: seq<Str>, w: Json, more: seq<Field>)
    requires ks != [] && AllHad(fs, ks) && Equiv(Val(fs, ks[0]), w) && Ascends(w) && Answer(fs, ks[1..], more)
    ensures Answer(fs, ks, [Field(ks[0], w)] + more)
  {
    forall i | 0 < i < |ks| ensures ks[i] == ks[1..][i - 1] {}
  }

  /** The text of the first field, up to where its value begins. */
  lemma OpensField(fs: seq<Field>, ks: seq<Str>, value: Str, x: Str)
    requires ks != [] && AllHad(fs, ks) && value == CanonicalJson(Val(fs, ks[0])) + (MoreKeys(fs, ks) + [125] + x)
    ensures var t := PrintKeys(fs, ks) + [125] + x; t != [] && t[0] == 34 && ReadString(t[1..]) == Some((ks[0], [58] + value))
  {
    PrintKeysOpens(fs, ks, x);
    QuoteIsRead(ks[0], [58] + value);
  }

  lemma {:induction false} FieldsAreRead(fs: seq<Field>, ks: seq<Str>, x: Str) returns (gs: seq<Field>)
    requires ks != [] && AllHad(fs, ks) && ValuesWf(fs)
    ensures ReadFields(PrintKeys(fs, ks) + [125] + x) == Some((gs, x)) && Answer(fs, ks, gs)
    decreases fs, 1, |ks|
  {
    var after := MoreKeys(fs, ks) + [125] + x;
    var value := CanonicalJson(Val(fs, ks[0])) + after;
    OpensField(fs, ks, value, x);
    AfterFirst(fs, ks, x);
    var w := ValueIsRead(Val(fs, ks[0]), after);
    var more: seq<Field> := [];
    if |ks| > 1 { more := FieldsAreRead(fs, ks[1..], x); }
    gs := [Field(ks[0], w)] + more;
    FieldReads(PrintKeys(fs, ks) + [125] + x, ks[0], value, w, after, more, x);
    FirstAnswers(fs, ks, w, more);
  }

  lemma SingleKeysDiffer(ks: seq<Str>, i: nat, j: nat)
    requires i < j < |ks| && forall k | k in ks :: multiset(ks)[k] == 1
    ensures ks[i] != ks[j]
  {
    var p, q := ks[..j], ks[j..];
    assert ks == p + q;
    assert p[i] == ks[i] && q[0] == ks[j];
    assert p[i] in multiset(p) && q[0] in multiset(q);
    assert multiset(ks)[p[i]] == multiset(p)[p[i]] + multiset(q)[p[i]];
    assert multiset(p)[p[i]] >= 1 && multiset(q)[q[0]] >= 1;
    assert multiset(ks)[ks[i]] == 1 by { assert ks[i] in ks; }
  }

  lemma SortedFieldsAscend(fs: seq<Field>, ks: seq<Str>, gs: seq<Field>)
    requires Distinct(fs) && ks == Sort(Keys(fs)) && |gs| == |ks|
    requires forall i | 0 <= i < |ks| :: gs[i].key == ks[i] && Ascends(gs[i].value)
    ensures Ascends(Obj(gs))
  {
    SortKeeps(Keys(fs));
    DistinctKeys(Keys(fs));
    forall k | k in ks ensures multiset(ks)[k] == 1 { assert k in multiset(ks); }
    forall i, j | 0 <= i < j < |gs| ensures Precedes(gs[i].key, gs[j].key) {
      SingleKeysDiffer(ks, i, j);
      LeIsLexicographic(ks[i], ks[j]);
    }
  }

  lemma SortedFieldsEquiv(fs: seq<Field>, ks: seq<Str>, gs: seq<Field>)
    requires Distinct(fs) && ks == Sort(Keys(fs)) && AllHad(fs, ks) && |gs| == |ks|
    requires forall i | 0 <= i < |ks| :: gs[i].key == ks[i] && Equiv(Val(fs, ks[i]), gs[i].value)
    ensures Equiv(Obj(fs), Obj(gs))
  {
    SortKeeps(Keys(fs));
    forall i | 0 <= i < |fs| ensures Has(gs, fs[i].key) && Equiv(fs[i].value, gs[Find(gs, fs[i].key)].value) {
      FindUnique(fs, i);
      assert Keys(fs)[i] in multiset(ks);
      var j :| 0 <= j < |ks| && ks[j] == fs[i].key;
      assert gs[j].key == fs[i].key;
    }
  }
}
