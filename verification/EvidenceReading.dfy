/** What a reader of the evidence message finds: an envelope that claims no authority, around the value or the front of its text. */
module EvidenceReading {
  import opened Outcomes
  import opened JsonText
  import opened CanonicalPrinter
  import opened JsonReading
  import opened DialogueState
  import T = EvidenceTruncation
  import M = EvidenceMessage

  // ----- Serialized values -----

  lemma {:induction false} StringifyIsRead(v: Json, x: Str)
    requires Wf(v) && Ends(x)
    ensures ReadValue(T.Stringify(v) + x) == Some((v, x))
    decreases v, 0
  {
    match v
    case Null => NullIsRead(x);
    case Bool(b) => BoolIsRead(b, x);
    case Num(l) => NumberIsRead(l, x);
    case Text(s) => QuoteIsRead(s, x);
    case Arr(items) =>
      var t := T.Stringify(v) + x;
      Regroup([91], T.StringifyItems(items), [93], x);
      assert t[1..] == T.StringifyItems(items) + [93] + x;
      if items == [] {
        assert t[2..] == x;
      } else {
        StringifiedItemsRead(items, x);
        assert t[1] == t[1..][0];
        BracketReads(t, items, x);
      }
    case Obj(fields) =>
      var t := T.Stringify(v) + x;
      Regroup([123], T.StringifyFields(fields), [125], x);
      assert t[1..] == T.StringifyFields(fields) + [125] + x;
      if fields == [] {
        assert t[2..] == x;
      } else {
        StringifiedFieldsRead(fields, x);
        assert t[1] == t[1..][0];
        BraceReads(t, fields, x);
      }
  }

  lemma FirstStringified(v: Json, x: Str)
    requires Wf(v)
    ensures T.Stringify(v) != [] && (T.Stringify(v) + x)[0] != 93
  {
  }

  /** What follows the first of several printed things: a comma and the others, or the end. */
  function After(more: bool, rest: Str, end: Unit, x: Str): Str { if more then [44] + (rest + [end] + x) else [end] + x }

  lemma JoinsMore(first: Str, rest: Str, end: Unit, x: Str)
    ensures first + [44] + rest + [end] + x == first + After(true, rest, end, x)
  {
  }

  lemma JoinsNone(first: Str, end: Unit, x: Str)
    ensures first + [] + [] + [end] + x == first + After(false, [], end, x)
  {
  }

  lemma ItemsOpen(items: seq<Json>, x: Str)
    requires items != []
    ensures T.StringifyItems(items) + [93] + x == T.Stringify(items[0]) + After(|items| > 1, T.StringifyItems(items[1..]), 93, x)
  {
    JoinsMore(T.Stringify(items[0]), T.StringifyItems(items[1..]), 93, x);
    JoinsNone(T.Stringify(items[0]), 93, x);
  }

  lemma ItemReads(t: Str, v: Json, after: Str, more: seq<Json>, x: Str)
    requires ReadValue(t) == Some((v, after)) && after != []
    requires if after[0] == 93 then more == [] && after[1..] == x else after[0] == 44 && ReadItems(after[1..]) == Some((more, x))
    ensures ReadItems(t) == Some(([v] + more, x))
  {
    assert [v] + [] == [v];
  }

  lemma {:induction false} StringifiedItemsRead(items: seq<Json>, x: Str)
    requires items != [] && forall i | 0 <= i < |items| :: Wf(items[i])
    ensures var t := T.StringifyItems(items) + [93] + x; t[0] != 93 && ReadItems(t) == Some((items, x))
    decreases items, 1
  {
    var rest := T.StringifyItems(items[1..]);
    var after := After(|items| > 1, rest, 93, x);
    ItemsOpen(items, x);
    FirstStringified(items[0], after);
    StringifyIsRead(items[0], after);
    var more: seq<Json> := [];
    if |items| == 1 {
      assert after[1..] == x;
    } else {
      assert after[1..] == rest + [93] + x;
      StringifiedItemsRead(items[1..], x);
      more := items[1..];
    }
    ItemReads(T.StringifyItems(items) + [93] + x, items[0], after, more, x);
    assert items == [items[0]] + more;
  }

  lemma FieldsOpen(fields: seq<Field>, x: Str)
    requires fields != []
    ensures T.StringifyFields(fields) + [125] + x
         == Quote(fields[0].key) + ([58] + (T.Stringify(fields[0].value) + After(|fields| > 1, T.StringifyFields(fields[1..]), 125, x)))
  {
    var key, text, rest := Quote(fields[0].key), T.Stringify(fields[0].value), T.StringifyFields(fields[1..]);
    JoinsMore(key + [58] + text, rest, 125, x);
    JoinsNone(key + [58] + text, 125, x);
    NamedText(key, text, After(|fields| > 1, rest, 125, x));
  }

  lemma NamedText(key: Str, text: Str, after: Str)
    ensures key + [58] + text + after == key + ([58] + (text + after))
  {
  }

  lemma {:induction false} StringifiedFieldsRead(fields: seq<Field>, x: Str)
    requires fields != [] && forall i | 0 <= i < |fields| :: Wf(fields[i].value)
    ensures var t := T.StringifyFields(fields) + [125] + x; t[0] != 125 && ReadFields(t) == Some((fields, x))
    decreases fields, 1
  {
    var f, rest := fields[0], T.StringifyFields(fields[1..]);
    var after := After(|fields| > 1, rest, 125, x);
    FieldsOpen(fields, x);
    StringifyIsRead(f.value, after);
    QuoteIsRead(f.key, [58] + (T.Stringify(f.value) + after));
    var more: seq<Field> := [];
    if |fields| == 1 {
      assert after[1..] == x;
    } else {
      assert after[1..] == rest + [125] + x;
      StringifiedFieldsRead(fields[1..], x);
      more := fields[1..];
    }
    FieldReads(T.StringifyFields(fields) + [125] + x, f.key, T.Stringify(f.value) + after, f.value, after, more, x);
    assert fields == [f] + more;
  }

  // ----- The program's own texts -----

  lemma {:induction false} PlainIsQuotedAsIs(s: Str)
    requires forall i | 0 <= i < |s| :: 32 <= s[i] < 127 && s[i] != 34 && s[i] != 92
    ensures Escape(s) == s
  {
    if s != [] {
      PlainIsQuotedAsIs(s[1..]);
      assert s == [s[0]] + s[1..];
    }
  }

  /** The text of a plain name in the envelope is what the serializer makes of it. */
  lemma NameIsQuoted(s: seq<T.Ascii>)
    requires forall i | 0 <= i < |s| :: 32 <= s[i] < 127 && s[i] != 34 && s[i] != 92
    ensures M.Quoted(s) == Quote(s)
  {
    PlainIsQuotedAsIs(s);
  }

  // ----- The envelope as a value -----

  lemma NamesSpelledOut()
    ensures Spells(M.SCHEMA, "schema") && Spells(M.VERSION, "r2d2-untrusted-evidence/v1") && Spells(M.KIND, "kind")
    ensures Spells(M.INSTRUCTION, "instructionAuthority") && Spells(M.ACTION, "actionAuthority") && Spells(M.DATA, "data")
    ensures Spells(M.TRUNCATED, "truncated") && Spells(M.ORIGINAL_LENGTH, "originalLength") && Spells(M.EXCERPT_NAME, "excerpt")
  {
  }

  /** An envelope without authority of any kind. */
  function EnvelopeOf(kind: Str, data: Json): Json {
    Obj([Field(M.SCHEMA, Text(M.VERSION)), Field(M.KIND, Text(kind)),
         Field(M.INSTRUCTION, Bool(false)), Field(M.ACTION, Bool(false)), Field(M.DATA, data)])
  }

  /** What stands in for a value that is too long. */
  function Shortened(length: nat, excerpt: Str): Json {
    Obj([Field(M.TRUNCATED, Bool(true)), Field(M.ORIGINAL_LENGTH, Num(Decimal(length))), Field(M.EXCERPT_NAME, Text(excerpt))])
  }

  lemma Join(p: Str, q: Str, x: Str)
    ensures p + q + x == p + (q + x)
  {
  }

  /** A name, its value, and what follows. */
  function Named(key: Str, text: Str, after: Str): Str { key + ([58] + (text + after)) }

  lemma OneNamed(f: Field, x: Str)
    ensures T.StringifyFields([f]) + [125] + x == Named(Quote(f.key), T.Stringify(f.value), [125] + x)
  {
    FieldsOpen([f], x);
  }

  lemma MoreNamed(f: Field, rest: seq<Field>, x: Str)
    requires rest != []
    ensures T.StringifyFields([f] + rest) + [125] + x
         == Named(Quote(f.key), T.Stringify(f.value), [44] + (T.StringifyFields(rest) + [125] + x))
  {
    assert ([f] + rest)[1..] == rest;
    FieldsOpen([f] + rest, x);
  }

  lemma ThreeNamed(f: Field, g: Field, h: Field, x: Str)
    ensures T.StringifyFields([f, g, h]) + [125] + x ==
      Named(Quote(f.key), T.Stringify(f.value), [44] + Named(Quote(g.key), T.Stringify(g.value), [44] +
        Named(Quote(h.key), T.Stringify(h.value), [125] + x)))
  {
    assert [f, g, h] == [f] + ([g] + [h]);
    MoreNamed(f, [g] + [h], x);
    MoreNamed(g, [h], x);
    OneNamed(h, x);
  }

  lemma FiveNamed(e: Field, d: Field, f: Field, g: Field, h: Field, x: Str)
    ensures T.StringifyFields([e, d, f, g, h]) + [125] + x ==
      Named(Quote(e.key), T.Stringify(e.value), [44] + Named(Quote(d.key), T.Stringify(d.value), [44] +
        (T.StringifyFields([f, g, h]) + [125] + x)))
  {
    assert [e, d, f, g, h] == [e] + ([d] + [f, g, h]);
    MoreNamed(e, [d] + [f, g, h], x);
    MoreNamed(d, [f, g, h], x);
  }

  /** The fixed texts of the envelope, with what follows them. */
  lemma OpeningNames(x: Str)
    ensures M.OPENING + x == [123] + Named(M.Quoted(M.SCHEMA), M.Quoted(M.VERSION), [44] + (M.Quoted(M.KIND) + ([58] + x)))
  {
    var a, b, c := M.Quoted(M.SCHEMA), M.Quoted(M.VERSION), M.Quoted(M.KIND);
    SevenJoin([123], a, [58], b, [44], c, [58], x);
  }

  lemma SevenJoin(a: Str, b: Str, c: Str, d: Str, e: Str, f: Str, g: Str, x: Str)
    ensures a + b + c + d + e + f + g + x == a + (b + (c + (d + (e + (f + (g + x))))))
  {
    Join(a + b + c + d + e + f, g, x);
    Join(a + b + c + d + e, f, g + x);
    Join(a + b + c + d, e, f + (g + x));
    Join(a + b + c, d, e + (f + (g + x)));
    Join(a + b, c, d + (e + (f + (g + x))));
    Join(a, b, c + (d + (e + (f + (g + x)))));
  }

  lemma FlagsName(x: Str)
    ensures M.FLAGS + x == [44] + Named(M.Quoted(M.INSTRUCTION), M.NO, [44] + Named(M.Quoted(M.ACTION), M.NO, [44] + (M.Quoted(M.DATA) + ([58] + x))))
  {
    var a, b, c := M.Quoted(M.INSTRUCTION), M.Quoted(M.ACTION), M.Quoted(M.DATA);
    var first: Str := [44] + a + [58] + M.NO;
    SevenJoin(first, [44], b, [58], M.NO, [44] + c, [58], x);
    assert first + [44] + b + [58] + M.NO + ([44] + c) + [58] == M.FLAGS;
    var rest := [44] + (b + ([58] + (M.NO + (([44] + c) + ([58] + x)))));
    Join([44] + a + [58], M.NO, rest);
    Join([44] + a, [58], M.NO + rest);
    Join([44], a, [58] + (M.NO + rest));
    Join([44], c, [58] + x);
  }

  lemma CutNames(x: Str, y: Str)
    ensures M.CUT + x == [123] + Named(M.Quoted(M.TRUNCATED), M.YES, [44] + (M.Quoted(M.ORIGINAL_LENGTH) + ([58] + x)))
    ensures M.EXCERPT + y == [44] + (M.Quoted(M.EXCERPT_NAME) + ([58] + y))
  {
    SevenJoin([123], M.Quoted(M.TRUNCATED), [58], M.YES, [44], M.Quoted(M.ORIGINAL_LENGTH), [58], x);
    Join([44] + M.Quoted(M.EXCERPT_NAME), [58], y);
    Join([44], M.Quoted(M.EXCERPT_NAME), [58] + y);
  }

  lemma EndsWithBrace(s: Str)
    ensures s + [125] + [] == s + [125] && [123] + s + [125] == [123] + (s + [125])
  {
  }

  lemma NamesAreQuoted()
    ensures M.Quoted(M.SCHEMA) == Quote(M.SCHEMA) && M.Quoted(M.KIND) == Quote(M.KIND) && M.Quoted(M.DATA) == Quote(M.DATA)
    ensures M.Quoted(M.VERSION) == Quote(M.VERSION)
    ensures M.Quoted(M.INSTRUCTION) == Quote(M.INSTRUCTION)
    ensures M.Quoted(M.ACTION) == Quote(M.ACTION)
  {
    NameIsQuoted(M.SCHEMA);
    NameIsQuoted(M.KIND);
    NameIsQuoted(M.DATA);
    NameIsQuoted(M.VERSION);
    NameIsQuoted(M.INSTRUCTION);
    NameIsQuoted(M.ACTION);
  }

  /** The text of the envelope around any serialized value, laid out by name. */
  function Layout(kind: Str, data: Str): Str {
    var flags := [44] + Named(Quote(M.INSTRUCTION), FALSE, [44] + Named(Quote(M.ACTION), FALSE,
                   [44] + Named(Quote(M.DATA), data, [125])));
    [123] + Named(Quote(M.SCHEMA), Quote(M.VERSION), [44] + Named(Quote(M.KIND), Quote(kind), flags))
  }

  lemma WordsAgree()
    ensures M.NO == FALSE && M.YES == TRUE
  {
  }

  lemma WrappedJoins(opening: Str, kind: Str, flags: Str, data: Str)
    ensures M.Wrapped(opening, kind, flags, data) == opening + (Quote(kind) + (flags + (data + [125])))
  {
    var k := Quote(kind);
    Join(opening + k + flags, data, [125]);
    Join(opening + k, flags, data + [125]);
    Join(opening, k, flags + (data + [125]));
  }

  lemma SerializedLayout(kind: Str, data: Str)
    ensures M.Serialized(kind, data) == Layout(kind, data)
  {
    NamesAreQuoted();
    WordsAgree();
    WrappedJoins(M.OPENING, kind, M.FLAGS, data);
    FlagsName(data + [125]);
    OpeningNames(Quote(kind) + (M.FLAGS + (data + [125])));
  }

  lemma StringifiedLayout(kind: Str, data: Json)
    ensures T.Stringify(EnvelopeOf(kind, data)) == Layout(kind, T.Stringify(data))
  {
    var fs := EnvelopeOf(kind, data).fields;
    FiveNamed(fs[0], fs[1], fs[2], fs[3], fs[4], []);
    ThreeNamed(fs[2], fs[3], fs[4], []);
    EndsWithBrace(T.StringifyFields(fs));
    assert [125] + [] == [125];
  }

  /** The program's serialized text is that of an envelope without authority around the value. */
  lemma SerializedIsEnvelope(kind: Str, data: Json)
    ensures M.Serialized(kind, T.Stringify(data)) == T.Stringify(EnvelopeOf(kind, data))
  {
    SerializedLayout(kind, T.Stringify(data));
    StringifiedLayout(kind, data);
  }

  /** The text of the record of a cut, laid out by name. */
  function ShortLayout(length: nat, excerpt: Str): Str {
    [123] + Named(Quote(M.TRUNCATED), TRUE, [44] + Named(Quote(M.ORIGINAL_LENGTH), Decimal(length),
      [44] + Named(Quote(M.EXCERPT_NAME), Quote(excerpt), [125])))
  }

  lemma StringifiedShort(length: nat, excerpt: Str)
    ensures T.Stringify(Shortened(length, excerpt)) == ShortLayout(length, excerpt)
  {
    var fs := Shortened(length, excerpt).fields;
    ThreeNamed(fs[0], fs[1], fs[2], []);
    EndsWithBrace(T.StringifyFields(fs));
    assert [125] + [] == [125];
  }

  lemma ShortNames()
    ensures M.Quoted(M.TRUNCATED) == Quote(M.TRUNCATED) && M.Quoted(M.ORIGINAL_LENGTH) == Quote(M.ORIGINAL_LENGTH)
    ensures M.Quoted(M.EXCERPT_NAME) == Quote(M.EXCERPT_NAME)
  {
    NameIsQuoted(M.TRUNCATED);
    NameIsQuoted(M.ORIGINAL_LENGTH);
    NameIsQuoted(M.EXCERPT_NAME);
  }

  lemma ShortenedText(length: nat, excerpt: Str)
    ensures T.Stringify(Shortened(length, excerpt)) == M.CUT + (Decimal(length) + (M.EXCERPT + (Quote(excerpt) + [125])))
  {
    StringifiedShort(length, excerpt);
    ShortNames();
    WordsAgree();
    CutNames(Decimal(length) + (M.EXCERPT + (Quote(excerpt) + [125])), Quote(excerpt) + [125]);
  }

  lemma CutJoins(k: Str, c: Str, d: Str, e: Str, q: Str)
    ensures k + c + d + e + q + [125, 125] == k + (c + (d + (e + (q + [125])))) + [125]
  {
    Join(k + c + d + e, q, [125, 125]);
    Join(k + c + d, e, q + [125, 125]);
    Join(k + c, d, e + (q + [125, 125]));
    Join(k, c, d + (e + (q + [125, 125])));
    var r := c + (d + (e + (q + [125])));
    Join(k, r, [125]);
    assert r + [125] == c + (d + (e + (q + [125, 125])));
  }

  /** And a cut message is that of an envelope around the record of the cut. */
  lemma CutIsEnvelope(kind: Str, length: nat, excerpt: Str)
    ensures T.Envelope(M.Head(kind, length), M.Tail(), excerpt) == T.Stringify(EnvelopeOf(kind, Shortened(length, excerpt)))
  {
    CutJoins(M.OPENING + Quote(kind) + M.FLAGS, M.CUT, Decimal(length), M.EXCERPT, Quote(excerpt));
    ShortenedText(length, excerpt);
    SerializedIsEnvelope(kind, Shortened(length, excerpt));
  }

  /**
   * Whatever the kind and the value, the message reads as an envelope that claims no authority, under the kind's
   * first hundred units, around the value itself or around the front of the whole message and its length.
   */
  lemma MessageReads(kind: Str, value: Json, maximum: int, content: Str, kept: nat)
    requires Wf(value)
    requires M.IsMessage(M.Serialized(M.Sliced(kind), T.Stringify(value)), M.Sliced(kind), T.Budget(maximum), content, kept)
    ensures var k := kind[..if |kind| < 100 then |kind| else 100]; var s := T.Stringify(EnvelopeOf(k, value));
      if |s| <= T.Budget(maximum) then ReadValue(content) == Some((EnvelopeOf(k, value), []))
      else kept <= |s| && ReadValue(content) == Some((EnvelopeOf(k, Shortened(|s|, s[..kept])), []))
  {
    var k := M.Sliced(kind);
    var s := M.Serialized(k, T.Stringify(value));
    assert k == kind[..if |kind| < 100 then |kind| else 100];
    SerializedIsEnvelope(k, value);
    if |s| <= T.Budget(maximum) {
      EnvelopeReads(k, value, content);
    } else {
      CutIsEnvelope(k, |s|, s[..kept]);
      ShortenedWf(|s|, s[..kept]);
      EnvelopeReads(k, Shortened(|s|, s[..kept]), content);
    }
  }

  lemma ShortenedWf(length: nat, excerpt: Str)
    ensures Wf(Shortened(length, excerpt))
  {
    DecimalWf(length);
    var fs := Shortened(length, excerpt).fields;
    assert |fs[0].key| == 9 && |fs[1].key| == 14 && |fs[2].key| == 7;
  }

  lemma EnvelopeWf(kind: Str, data: Json)
    requires Wf(data)
    ensures Wf(EnvelopeOf(kind, data))
  {
    var fs := EnvelopeOf(kind, data).fields;
    assert |fs[0].key| == 6 && |fs[1].key| == 4 && |fs[2].key| == 20 && |fs[3].key| == 15 && |fs[4].key| == 4;
    assert fs[1].key[0] == 107 && fs[4].key[0] == 100;
  }

  lemma EnvelopeReads(kind: Str, data: Json, content: Str)
    requires Wf(data) && content == T.Stringify(EnvelopeOf(kind, data))
    ensures ReadValue(content) == Some((EnvelopeOf(kind, data), []))
  {
    EnvelopeWf(kind, data);
    StringifyIsRead(EnvelopeOf(kind, data), []);
    assert content + [] == content;
  }
}
