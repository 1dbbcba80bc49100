/** The evidence message as the program builds it: its own envelope around any value always fits the budget. */
module EvidenceMessage {
  import opened JsonText
  import CanonicalPrinter
  import opened DialogueState
  import opened EvidenceTruncation

  // ----- The program's own envelope -----

  /** A text without quotes and backslashes, in code units. */
  function Spelled(w: string): (s: seq<Ascii>)
    requires forall i | 0 <= i < |w| :: 32 <= w[i] as int < 127 && w[i] != '"' && w[i] != '\\'
    ensures |s| == |w| && forall i | 0 <= i < |s| :: 32 <= s[i] < 127 && s[i] != 34 && s[i] != 92
  {
    seq(|w|, i requires 0 <= i < |w| => w[i] as int)
  }

  // The names of the envelope's fields and of the record of a cut.
  const SCHEMA: seq<Ascii> := Spelled("schema")
  const VERSION: seq<Ascii> := Spelled("r2d2-untrusted-evidence/v1")
  const KIND: seq<Ascii> := Spelled("kind")
  const INSTRUCTION: seq<Ascii> := Spelled("instructionAuthority")
  const ACTION: seq<Ascii> := Spelled("actionAuthority")
  const DATA: seq<Ascii> := Spelled("data")
  const TRUNCATED: seq<Ascii> := Spelled("truncated")
  const ORIGINAL_LENGTH: seq<Ascii> := Spelled("originalLength")
  const EXCERPT_NAME: seq<Ascii> := Spelled("excerpt")
  const YES: seq<Ascii> := Spelled("true")
  const NO: seq<Ascii> := Spelled("false")

  function Quoted(s: seq<Ascii>): seq<Ascii> { [34] + s + [34] }

  /** The envelope's text up to its kind, from there to its data, and from there to the excerpt. */
  const OPENING: seq<Ascii> := [123] + Quoted(SCHEMA) + [58] + Quoted(VERSION) + [44] + Quoted(KIND) + [58]
  const FLAGS: seq<Ascii> := [44] + Quoted(INSTRUCTION) + [58] + NO + [44] + Quoted(ACTION) + [58] + NO + [44] + Quoted(DATA) + [58]
  const CUT: seq<Ascii> := [123] + Quoted(TRUNCATED) + [58] + YES + [44] + Quoted(ORIGINAL_LENGTH) + [58]
  const EXCERPT: seq<Ascii> := [44] + Quoted(EXCERPT_NAME) + [58]

  const MAX_KIND := 100

  /** The serialized envelope, whatever surrounds its kind. */
  function Wrapped(opening: Str, kind: Str, flags: Str, data: Str): Str { opening + Quote(kind) + flags + data + [125] }

  /** The serialized envelope around a serialized value. */
  function Serialized(kind: Str, data: Str): Str { Wrapped(OPENING, kind, FLAGS, data) }

  /** The truncated envelope before and after its excerpt; `length` is that of the text it was cut from. */
  function Head(kind: Str, length: nat): Str { OPENING + Quote(kind) + FLAGS + CUT + Decimal(length) + EXCERPT }

  function Tail(): Str { [125, 125] }

  lemma {:induction false} DecimalLength(n: nat, digits: nat)
    requires digits >= 1 && n < Power10(digits)
    ensures 1 <= |Decimal(n)| <= digits
    decreases digits
  {
    if n >= 10 { DecimalLength(n / 10, digits - 1); }
  }

  function Power10(n: nat): nat { if n == 0 then 1 else 10 * Power10(n - 1) }

  lemma {:induction false} PowerGrows(n: nat)
    requires n >= 4
    ensures Power10(n) >= 10000
  {
    if n == 4 { assert Power10(1) == 10 && Power10(2) == 100 && Power10(3) == 1000; } else { PowerGrows(n - 1); }
  }

  /** One escaped chunk: at most six units for each unit taken, and the quoting of it costs at most seven. */
  lemma ChunkLimits(s: Str)
    requires s != []
    ensures |Chunk(s)| <= 6 * Taken(s) && TotalCost(Chunk(s)) <= 7 * Taken(s) && TotalCost(Chunk(s)) - |Chunk(s)| <= 2 * Taken(s)
  {
    var c := Chunk(s);
    TotalCostBounds(c);
    if Taken(s) == 2 {
      CheapUnits(c);
    } else if |c| == 6 {
      assert c == [92] + c[1..];
      assert TotalCost([92]) == TotalCost([92][..0]) + 2;
      TotalCostAppends([92], c[1..]);
      CheapUnits(c[1..]);
    }
  }

  lemma {:induction false} CheapUnits(s: Str)
    requires forall i | 0 <= i < |s| :: s[i] != 34 && s[i] != 92
    ensures TotalCost(s) == |s|
  {
    if s != [] { CheapUnits(s[..|s| - 1]); }
  }

  lemma {:induction false} KindLimits(kind: Str)
    ensures |Escape(kind)| <= 6 * |kind| && TotalCost(Escape(kind)) <= 7 * |kind| && TotalCost(Escape(kind)) - |Escape(kind)| <= 2 * |kind|
    decreases |kind|
  {
    if kind != [] {
      var rest := kind[Taken(kind)..];
      ChunkLimits(kind);
      KindLimits(rest);
      TotalCostAppends(Chunk(kind), Escape(rest));
    }
  }

  lemma ProgramOverhead(kind: Str, length: nat)
    requires |kind| <= MAX_KIND && length < Power10(16)
    ensures Overhead(Head(kind, length), Tail()) == 159 + |Escape(kind)| + |Decimal(length)| <= 775
  {
    KindLimits(kind);
    DecimalLength(length, 16);
  }

  lemma WrappedIsPlain(opening: Str, kind: Str, flags: Str, data: Str)
    requires Plain(opening) && Plain(flags) && Plain(data)
    ensures Plain(Wrapped(opening, kind, flags, data))
  {
    QuoteIsPlain(kind);
    AsciiIsPlain([125]);
    FourPlain(opening, Quote(kind), flags, data);
    PlainAppends(opening + Quote(kind) + flags + data, [125]);
  }

  lemma WrappedSplits(opening: Str, kind: Str, flags: Str, data: Str)
    ensures Wrapped(opening, kind, flags, data) == (opening + [34] + Escape(kind)) + ([34] + flags + data + [125])
  {
    var e := Escape(kind);
    assert opening + ([34] + e + [34]) == (opening + [34] + e) + [34];
  }

  lemma SerializedIsPlainText(kind: Str, data: Str)
    requires Plain(data)
    ensures Plain(Serialized(kind, data))
  {
    AsciiText(OPENING);
    AsciiText(FLAGS);
    WrappedIsPlain(OPENING, kind, FLAGS, data);
  }

  /** Quoting the first `n` units of a concatenation. */
  lemma PrefixCost(a: Str, b: Str, n: nat)
    requires n <= |a + b|
    ensures n <= |a| ==> TotalCost((a + b)[..n]) - n <= TotalCost(a) - |a|
    ensures n >= |a| ==> TotalCost((a + b)[..n]) <= TotalCost(a) + 2 * (n - |a|)
  {
    if n <= |a| {
      assert (a + b)[..n] == a[..n] && a == a[..n] + a[n..];
      TotalCostAppends(a[..n], a[n..]);
      TotalCostBounds(a[n..]);
    } else {
      assert (a + b)[..n] == a + b[..n - |a|];
      TotalCostAppends(a, b[..n - |a|]);
      TotalCostBounds(b[..n - |a|]);
    }
  }

  /** What cutting an envelope after `n` units costs: few dense units before the kind, few for each of the kind's. */
  lemma WrappedCost(opening: Str, kind: Str, flags: Str, data: Str, n: nat)
    requires |opening| == 46 && |kind| <= MAX_KIND && n <= |Wrapped(opening, kind, flags, data)|
    ensures var k, cost := |Escape(kind)|, TotalCost(Wrapped(opening, kind, flags, data)[..n]);
      (n <= 47 + k ==> cost - n <= 47 + 700 - k) && (n >= 47 + k ==> cost <= 2 * n + 200 - k)
  {
    var p, rest := opening + [34] + Escape(kind), [34] + flags + data + [125];
    WrappedSplits(opening, kind, flags, data);
    TotalCostBounds(opening + [34]);
    TotalCostAppends(opening + [34], Escape(kind));
    KindLimits(kind);
    PrefixCost(p, rest, n);
  }

  /** The first attempt never overshoots by its whole excerpt: what the kind adds around the excerpt it also adds to it. */
  lemma FirstAttemptIsUseful(kind: Str, data: Str, budget: int)
    requires |kind| <= MAX_KIND && Plain(data)
    requires var s := Serialized(kind, data); 1000 <= budget < |s| < Power10(16)
    ensures var s := Serialized(kind, data); FirstAttempt(s, Head(kind, |s|), Tail(), budget) - budget < budget - 500
  {
    var s, n := Serialized(kind, data), budget - 500;
    SerializedIsPlainText(kind, data);
    assert TotalCost(s[..n]) + 5 + 175 + |Escape(kind)| < budget + n by {
      WrappedCost(OPENING, kind, FLAGS, data, n);
      KindLimits(kind);
    }
    assert |Escape(s[..n])| <= TotalCost(s[..n]) + 5 by { ExcerptCost(s, n); }
    assert Overhead(Head(kind, |s|), Tail()) <= 175 + |Escape(kind)| by { ProgramOverhead(kind, |s|); DecimalLength(|s|, 16); }
  }

  /**
   * Whatever the kind and the value: the evidence message the program builds is within its budget, after at most
   * three rounds.
   */
  lemma ProgramEvidenceFits(kind: Str, data: Str, budget: int)
    requires |kind| <= MAX_KIND && Plain(data)
    requires var s := Serialized(kind, data); 1000 <= budget < |s| < Power10(16)
    ensures var s := Serialized(kind, data); var head := Head(kind, |s|);
      |Envelope(head, Tail(), s[..Kept(s, head, Tail(), budget)])| <= budget
  {
    var s := Serialized(kind, data);
    var head := Head(kind, |s|);
    SerializedIsPlainText(kind, data);
    FirstAttemptIsUseful(kind, data, budget);
    EvidenceFitsIff(s, head, Tail(), budget);
    ProgramOverhead(kind, |s|);
    var n := SecondCut(s, head, Tail(), budget);
    if n <= 100 { ExcerptAtMostDouble(s, n); }
    EnvelopeLength(head, Tail(), s, Kept(s, head, Tail(), budget));
  }

  /** The message is the whole text if that fits, else the envelope around its first `kept` units. */
  predicate IsMessage(s: Str, kind: Str, budget: int, content: Str, kept: nat) {
    if |s| <= budget then content == s
    else kept <= |s| && content == Envelope(Head(kind, |s|), Tail(), s[..kept])
  }

  /** No text the program handles is that long. */
  const ENOUGH := 10_000_000_000_000_000

  lemma SixteenDigits()
    ensures Power10(16) == ENOUGH
  {
    assert Power10(4) == 10_000;
    assert Power10(8) == 100_000_000;
    assert Power10(12) == 1_000_000_000_000;
  }

  /** The cut for a sliced kind and a serialized value. */
  method EnvelopeMessage(kind: Str, data: Str, maximum: int) returns (content: Str, rounds: nat, kept: nat)
    requires |kind| <= MAX_KIND && Plain(data) && |Serialized(kind, data)| < ENOUGH
    ensures |content| <= Budget(maximum) && rounds <= 3
    ensures IsMessage(Serialized(kind, data), kind, Budget(maximum), content, kept)
  {
    var s, budget := Serialized(kind, data), Budget(maximum);
    SerializedIsPlainText(kind, data);
    content, rounds, kept := UntrustedEvidence(s, Head(kind, |s|), Tail(), maximum);
    if |s| > budget {
      SixteenDigits();
      ProgramEvidenceFits(kind, data, budget);
    }
  }

  /** The whole function: slice the kind, serialize, and cut until the message fits. */
  method UntrustedEvidenceMessage(kind: Str, value: CanonicalPrinter.Json, maximum: int) returns (content: Str, rounds: nat, kept: nat)
    requires CanonicalPrinter.Wf(value) && |Serialized(Sliced(kind), Stringify(value))| < ENOUGH
    ensures |content| <= Budget(maximum) && rounds <= 3
    ensures IsMessage(Serialized(Sliced(kind), Stringify(value)), Sliced(kind), Budget(maximum), content, kept)
  {
    SerializedIsPlain(value);
    content, rounds, kept := EnvelopeMessage(Sliced(kind), Stringify(value), maximum);
  }

  function Sliced(kind: Str): (k: Str)
    ensures |k| <= MAX_KIND
  {
    if |kind| > MAX_KIND then kind[..MAX_KIND] else kind
  }

  // ----- The third round happens -----

  function Repeated(c: Unit, n: nat): Str { if n == 0 then [] else [c] + Repeated(c, n - 1) }

  function Backslashed(n: nat): Str { if n == 0 then [] else [92, 34] + Backslashed(n - 1) }

  lemma {:induction false} RepeatedIs(c: Unit, n: nat)
    ensures |Repeated(c, n)| == n && forall i | 0 <= i < n :: Repeated(c, n)[i] == c
  {
    if n > 0 { RepeatedIs(c, n - 1); }
  }

  lemma {:induction false} BackslashedCost(n: nat)
    ensures |Backslashed(n)| == 2 * n && TotalCost(Backslashed(n)) == 4 * n
  {
    if n > 0 {
      BackslashedCost(n - 1);
      assert TotalCost([92, 34]) == 4 by { assert [92, 34][..1] == [92] && [92][..0] == []; }
      TotalCostAppends([92, 34], Backslashed(n - 1));
    }
  }

  /** A printable unit that is no surrogate is escaped by itself. */
  lemma EscapeUnit(c: Unit, rest: Str)
    requires c >= 32 && !High(c) && !Low(c)
    ensures Escape([c] + rest) == (if c == 34 || c == 92 then [92, c] else [c]) + Escape(rest)
  {
    var s := [c] + rest;
    assert s[0] == c && s[1..] == rest;
  }

  lemma Associates(a: Str, b: Str, c: Str)
    ensures a + b + c == a + (b + c)
  {
  }

  lemma {:induction false} EscapeQuotes(n: nat, rest: Str)
    ensures Escape(Repeated(34, n) + rest) == Backslashed(n) + Escape(rest)
  {
    if n == 0 {
      assert Repeated(34, 0) + rest == rest;
    } else {
      EscapeQuotes(n - 1, rest);
      Associates([34], Repeated(34, n - 1), rest);
      EscapeUnit(34, Repeated(34, n - 1) + rest);
      Associates([92, 34], Backslashed(n - 1), Escape(rest));
    }
  }

  lemma {:induction false} EscapeLetters(n: nat, rest: Str)
    ensures Escape(Repeated(97, n) + rest) == Repeated(97, n) + Escape(rest)
  {
    if n == 0 {
      assert Repeated(97, 0) + rest == rest;
    } else {
      EscapeLetters(n - 1, rest);
      Associates([97], Repeated(97, n - 1), rest);
      EscapeUnit(97, Repeated(97, n - 1) + rest);
      Associates([97], Repeated(97, n - 1), Escape(rest));
    }
  }

  const PAIR: Str := [0xD83D, 0xDE00]

  /** A string of quotation marks, letters, one surrogate pair and more letters. */
  function Example(quotes: nat, before: nat, after: nat): Str {
    Repeated(34, quotes) + (Repeated(97, before) + (PAIR + Repeated(97, after)))
  }

  lemma ExampleEscapes(quotes: nat, before: nat, after: nat)
    ensures Escape(Example(quotes, before, after)) == Backslashed(quotes) + (Repeated(97, before) + (PAIR + Repeated(97, after)))
  {
    var tail := PAIR + Repeated(97, after);
    EscapeQuotes(quotes, Repeated(97, before) + tail);
    EscapeLetters(before, tail);
    assert tail[2..] == Repeated(97, after);
    assert Escape(tail) == PAIR + Escape(Repeated(97, after));
    EscapeLetters(after, []);
    assert Repeated(97, after) + [] == Repeated(97, after);
  }

  /** What cutting `front`, the backslashed quotes and plain units costs. */
  lemma ExampleCost(front: Str, quotes: nat, plain: Str, rest: Str, n: nat)
    requires forall i | 0 <= i < |plain| :: plain[i] != 34 && plain[i] != 92
    requires |front| + 2 * quotes <= n <= |front| + 2 * quotes + |plain|
    ensures var s := front + Backslashed(quotes) + plain + rest;
      |front| + 2 * quotes + |plain| <= |s| && TotalCost(s[..n]) == TotalCost(front) + 4 * quotes + (n - |front| - 2 * quotes)
  {
    BackslashedCost(quotes);
    var s, k := front + Backslashed(quotes) + plain + rest, n - |front| - 2 * quotes;
    assert s[..n] == front + Backslashed(quotes) + plain[..k];
    TotalCostAppends(front, Backslashed(quotes));
    TotalCostAppends(front + Backslashed(quotes), plain[..k]);
    CheapUnits(plain[..k]);
  }

  function Front(): Str { OPENING + Quote([97]) + FLAGS + [34] }

  function PlainPart(before: nat, after: nat): Str { Repeated(97, before) + PAIR + Repeated(97, after) }

  lemma ExampleText(quotes: nat, before: nat, after: nat)
    ensures Serialized([97], Quote(Example(quotes, before, after)))
         == Front() + Backslashed(quotes) + PlainPart(before, after) + [34, 125]
  {
    ExampleEscapes(quotes, before, after);
    QuotedTail(OPENING + Quote([97]) + FLAGS, Backslashed(quotes), Repeated(97, before), PAIR, Repeated(97, after));
  }

  lemma QuotedTail(a: Str, b: Str, c: Str, d: Str, e: Str)
    ensures a + ([34] + (b + (c + (d + e))) + [34]) + [125] == (a + [34]) + b + (c + d + e) + [34, 125]
  {
  }

  lemma FrontLength()
    ensures |Front()| == 111
  {
    assert Escape([97]) == [97] by { assert [97][1..] == []; assert Chunk([97]) == [97]; }
  }

  lemma PlainPartUnits(before: nat, after: nat)
    ensures var p := PlainPart(before, after);
      |p| == before + 2 + after && p[before] == 0xD83D && p[before + 1] == 0xDE00 && forall i | 0 <= i < |p| :: p[i] != 34 && p[i] != 92
  {
    RepeatedIs(97, before);
    RepeatedIs(97, after);
  }

  /** A message of kind "a" whose string value makes the program take the third round at a budget of 1200. */
  lemma ThirdRoundHappens() returns (value: Str)
    ensures var s := Serialized([97], Quote(value)); 1200 < |s| && ThirdRound(s, Head([97], |s|), Tail(), 1200)
  {
    FrontLength();
    TotalCostBounds(Front());
    var dense := TotalCost(Front()) - 111;
    var quotes := (434 - dense) / 2;
    var before, after := 599 - 111 - 2 * quotes, 1400;
    value := Example(quotes, before, after);
    var s := Serialized([97], Quote(value));
    ExampleText(quotes, before, after);
    PlainPartUnits(before, after);
    BackslashedCost(quotes);
    assert |s| == 2003;
    QuoteIsPlain(value);
    SerializedIsPlainText([97], Quote(value));
    ExampleExcerpts(s, quotes, before, after, dense);
    ExampleOverhead();
    ThirdRoundWhen(s, Head([97], |s|), Tail(), dense + 2 * quotes);
  }

  lemma UnitOfPart(a: Str, b: Str, c: Str, d: Str, k: nat)
    requires k < |c|
    ensures (a + b + c + d)[|a| + |b| + k] == c[k]
  {
  }

  lemma ExampleUnits(quotes: nat, before: nat, after: nat)
    requires |Front()| == 111 && before == 488 - 2 * quotes && after == 1400
    ensures var s := Front() + Backslashed(quotes) + PlainPart(before, after) + [34, 125];
      |s| == 2003 && s[599] == 0xD83D && s[600] == 0xDE00 && s[699] == 97
  {
    BackslashedCost(quotes);
    PlainPartUnits(before, after);
    var p := PlainPart(before, after);
    UnitOfPart(Front(), Backslashed(quotes), p, [34, 125], before);
    UnitOfPart(Front(), Backslashed(quotes), p, [34, 125], before + 1);
    UnitOfPart(Front(), Backslashed(quotes), p, [34, 125], before + 100);
    RepeatedIs(97, before);
    RepeatedIs(97, after);
    assert p[before + 100] == Repeated(97, after)[98];
  }

  lemma ExampleExcerpts(s: Str, quotes: nat, before: nat, after: nat, dense: nat)
    requires s == Front() + Backslashed(quotes) + PlainPart(before, after) + [34, 125] && |s| == 2003 && Plain(s)
    requires |Front()| == 111 && TotalCost(Front()) == 111 + dense && before == 488 - 2 * quotes && after == 1400
    ensures |Escape(s[..700])| == 700 + dense + 2 * quotes && |Escape(s[..600])| == 605 + dense + 2 * quotes
  {
    PlainPartUnits(before, after);
    ExampleUnits(quotes, before, after);
    ExampleCost(Front(), quotes, PlainPart(before, after), [34, 125], 700);
    ExampleCost(Front(), quotes, PlainPart(before, after), [34, 125], 600);
    ExcerptCost(s, 700);
    ExcerptCost(s, 600);
  }

  lemma ThirdRoundWhen(s: Str, head: Str, tail: Str, dense: nat)
    requires |s| == 2003 && Overhead(head, tail) == 164 && 433 <= dense <= 434
    requires |Escape(s[..700])| == 700 + dense && |Escape(s[..600])| == 605 + dense
    ensures ThirdRound(s, head, tail, 1200)
  {
    assert FirstAttempt(s, head, tail, 1200) == 864 + dense;
    assert SecondCut(s, head, tail, 1200) == 600;
  }

  lemma ExampleOverhead()
    ensures Overhead(Head([97], 2003), Tail()) == 164
  {
    assert Escape([97]) == [97] by { assert [97][1..] == []; assert Chunk([97]) == [97]; }
    PowerGrows(16);
    ProgramOverhead([97], 2003);
    assert |Decimal(2003)| == 4 by { assert |Decimal(2)| == 1 && |Decimal(20)| == 2 && |Decimal(200)| == 3; }
  }
}
