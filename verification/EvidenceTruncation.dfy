/** Shortening an evidence envelope until it fits the prompt budget. */
module EvidenceTruncation {
  import opened JsonText
  import CanonicalPrinter

  /** Well-formed UTF-16: surrogates come in pairs. */
  predicate Paired(s: Str) {
    s == [] || (if Taken(s) == 2 then Paired(s[2..]) else !High(s[0]) && !Low(s[0]) && Paired(s[1..]))
  }

  /** Serialized JSON contains no raw control characters. */
  predicate Printable(s: Str) { forall i | 0 <= i < |s| :: s[i] >= 32 }

  /** Cutting after `n` units separates a pair. */
  predicate Splits(s: Str, n: nat)
    requires n <= |s|
  {
    0 < n < |s| && High(s[n - 1]) && Low(s[n])
  }

  predicate NeverSplits(s: Str) { forall n | 0 <= n <= |s| :: !Splits(s, n) }

  function Cost(c: Unit): nat { if c == 34 || c == 92 then 2 else 1 }

  function TotalCost(s: Str): nat { if s == [] then 0 else TotalCost(s[..|s| - 1]) + Cost(s[|s| - 1]) }

  lemma {:induction false} TotalCostAppends(s: Str, t: Str)
    ensures TotalCost(s + t) == TotalCost(s) + TotalCost(t)
  {
    if t == [] {
      assert s + t == s;
    } else {
      TotalCostAppends(s, t[..|t| - 1]);
      assert (s + t)[..|s + t| - 1] == s + t[..|t| - 1];
    }
  }

  lemma {:induction false} TotalCostBounds(s: Str)
    ensures |s| <= TotalCost(s) <= 2 * |s|
  {
    if s != [] { TotalCostBounds(s[..|s| - 1]); }
  }

  /** Half of a pair is escaped: six units for one. */
  lemma HalfPair(s: Str)
    requires s != [] && Taken(s) == 2
    ensures |Escape(s[..1])| == TotalCost(s[..1]) + 5
  {
    var half := s[..1];
    assert Chunk(half) == [92, 117] + Hex4(s[0]);
    assert half[Taken(half)..] == [] && half[..|half| - 1] == [];
  }

  /** Quoting splits off the first chunk, and so does the cost. */
  lemma FirstChunk(s: Str, n: nat)
    requires s != [] && Paired(s) && Printable(s) && Taken(s) <= n <= |s|
    ensures var k := Taken(s);
      |Escape(s[..n])| - |Escape(s[k..][..n - k])| == TotalCost(s[..n]) - TotalCost(s[k..][..n - k])
  {
    var k := Taken(s);
    var head, rest := s[..k], s[k..][..n - k];
    ChunkCost(s, n);
    CutsAgree(s, k, n);
    EscapeFirst(s[..n]);
    TotalCostAppends(head, rest);
  }

  lemma CutsAgree(s: Str, k: nat, n: nat)
    requires k <= n <= |s|
    ensures s[..n][k..] == s[k..][..n - k] && s[..n] == s[..k] + s[k..][..n - k]
  {
  }

  lemma EscapeFirst(s: Str)
    requires s != []
    ensures |Escape(s)| == |Chunk(s)| + |Escape(s[Taken(s)..])|
  {
  }

  lemma SplitsLater(s: Str, n: nat)
    requires s != [] && Paired(s) && Taken(s) <= n <= |s|
    ensures Splits(s[Taken(s)..], n - Taken(s)) <==> Splits(s, n)
  {
    BoundaryIsClean(s);
  }

  lemma PairedRest(s: Str)
    requires Paired(s) && Printable(s) && s != []
    ensures Paired(s[Taken(s)..]) && Printable(s[Taken(s)..])
  {
  }

  /** What quoting an excerpt costs: its units, and five more when its last unit is half a pair. */
  lemma {:induction false} ExcerptCost(s: Str, n: nat)
    requires Paired(s) && Printable(s) && n <= |s|
    ensures |Escape(s[..n])| == TotalCost(s[..n]) + if Splits(s, n) then 5 else 0
    decreases |s|
  {
    if n > 0 && n < Taken(s) {
      HalfPair(s);
    } else if n > 0 {
      PairedRest(s);
      ExcerptCost(s[Taken(s)..], n - Taken(s));
      FirstChunk(s, n);
      SplitsLater(s, n);
    }
  }

  lemma BoundaryIsClean(s: Str)
    requires Paired(s) && s != []
    ensures !Splits(s, Taken(s))
  {
  }

  lemma ChunkCost(s: Str, n: nat)
    requires s != [] && Paired(s) && Printable(s) && Taken(s) <= n <= |s|
    ensures Taken(s[..n]) == Taken(s) && |Chunk(s[..n])| == TotalCost(s[..Taken(s)])
  {
    var head := s[..Taken(s)];
    assert TotalCost(s[..1]) == TotalCost([]) + Cost(s[0]) by { assert s[..1][..0] == []; }
    if Taken(s) == 2 {
      assert head[..1] == s[..1];
      assert TotalCost(head) == TotalCost(head[..1]) + Cost(s[1]);
    }
  }

  /** A shorter excerpt is cheaper by at least what was cut, give or take one split pair. */
  lemma ShorterIsCheaper(s: Str, n: nat, m: nat)
    requires Paired(s) && Printable(s) && n <= m <= |s|
    ensures |Escape(s[..n])| + (m - n) <= |Escape(s[..m])| + 5
    ensures !Splits(s, n) ==> |Escape(s[..n])| + (m - n) <= |Escape(s[..m])|
  {
    ExcerptCost(s, n);
    ExcerptCost(s, m);
    assert s[..m] == s[..n] + s[n..m];
    TotalCostAppends(s[..n], s[n..m]);
    TotalCostBounds(s[n..m]);
  }

  /** A split pair ends in a unit of cost one. */
  lemma SplitCost(s: Str, n: nat)
    requires n <= |s| && Splits(s, n)
    ensures TotalCost(s[..n]) <= 2 * n - 1
  {
    assert s[..n][..n - 1] == s[..n - 1];
    TotalCostBounds(s[..n - 1]);
  }

  lemma ExcerptAtMostDouble(s: Str, n: nat)
    requires Paired(s) && Printable(s) && n <= |s|
    ensures |Escape(s[..n])| <= 2 * n + if Splits(s, n) then 4 else 0
  {
    ExcerptCost(s, n);
    TotalCostBounds(s[..n]);
    if Splits(s, n) { SplitCost(s, n); }
  }

  // ----- The loop -----

  function Max(a: int, b: int): int { if a > b then a else b }

  function Budget(maximum: int): (b: int)
    ensures maximum >= 1000 ==> b == maximum
    ensures maximum == 0 ==> b == 14_000
    ensures maximum < 1000 && maximum != 0 ==> b == 1_000
  {
    Max(1000, if maximum == 0 then 14000 else maximum)
  }

  /** The envelope around an excerpt: `head` and `tail` hold every other field. */
  function Envelope(head: Str, tail: Str, excerpt: Str): Str { head + Quote(excerpt) + tail }

  /** Length of the envelope without its excerpt. */
  function Overhead(head: Str, tail: Str): nat { |head| + 2 + |tail| }

  function Shorter(excerpt: nat, length: int, budget: int): nat {
    Max(0, excerpt - Max(100, length - budget))
  }

  lemma EnvelopeLength(head: Str, tail: Str, s: Str, n: nat)
    requires n <= |s|
    ensures |Envelope(head, tail, s[..n])| == Overhead(head, tail) + |Escape(s[..n])|
  {
  }

  /** Length of the first attempt, which keeps all but 500 units of the budget. */
  function FirstAttempt(serialized: Str, head: Str, tail: Str, budget: int): int
    requires 1000 <= budget < |serialized|
  {
    Overhead(head, tail) + |Escape(serialized[..budget - 500])|
  }

  /** Length of the envelope around the first `n` units. */
  function Attempt(serialized: Str, head: Str, tail: Str, n: nat): nat
    requires n <= |serialized|
  {
    Overhead(head, tail) + |Escape(serialized[..n])|
  }

  /** The first attempt fits, or overshoots by at least its whole excerpt, so that nothing is left to cut. */
  predicate OneRound(serialized: Str, head: Str, tail: Str, budget: int)
    requires 1000 <= budget < |serialized|
  {
    var t := FirstAttempt(serialized, head, tail, budget);
    t <= budget || t - budget >= budget - 500
  }

  function SecondCut(serialized: Str, head: Str, tail: Str, budget: int): (n: nat)
    requires 1000 <= budget < |serialized|
    ensures n <= budget - 500
  {
    Shorter(budget - 500, FirstAttempt(serialized, head, tail, budget), budget)
  }

  /** The second attempt is over the budget although there was something left to cut. */
  predicate ThirdRound(serialized: Str, head: Str, tail: Str, budget: int)
    requires 1000 <= budget < |serialized|
  {
    var n := SecondCut(serialized, head, tail, budget);
    !OneRound(serialized, head, tail, budget) && Attempt(serialized, head, tail, n) > budget && n > 100
  }

  /** How many units the result keeps. */
  function Kept(serialized: Str, head: Str, tail: Str, budget: int): (n: nat)
    requires 1000 <= budget < |serialized|
    ensures n <= budget - 500
  {
    if OneRound(serialized, head, tail, budget) then budget - 500
    else if ThirdRound(serialized, head, tail, budget) then SecondCut(serialized, head, tail, budget) - 100
    else SecondCut(serialized, head, tail, budget)
  }

  /**
   * The do-while loop. It always terminates; `rounds` counts its turns and `kept` is the length of the
   * excerpt in the result.
   */
  method UntrustedEvidence(serialized: Str, head: Str, tail: Str, maximum: int)
    returns (content: Str, rounds: nat, kept: nat)
    requires Paired(serialized) && Printable(serialized)
    ensures |serialized| <= Budget(maximum) ==> content == serialized && rounds == 0
    ensures |serialized| > Budget(maximum) ==>
      && kept <= |serialized| && content == Envelope(head, tail, serialized[..kept]) && rounds >= 1
      && (rounds == 1 ==> kept == Budget(maximum) - 500)
      && (rounds >= 2 ==> |content| <= Budget(maximum) + 5 && (!Splits(serialized, kept) ==> |content| <= Budget(maximum)))
      && (rounds == 1 <==> var t := FirstAttempt(serialized, head, tail, Budget(maximum));
            t <= Budget(maximum) || t - Budget(maximum) >= Budget(maximum) - 500)
      && rounds <= 3
      && (rounds == 3 ==> |content| <= Budget(maximum))
    ensures |serialized| > Budget(maximum) && NeverSplits(serialized) ==>
      && rounds <= 2
      && (|content| <= Budget(maximum) <==>
            FirstAttempt(serialized, head, tail, Budget(maximum)) - Budget(maximum) < Budget(maximum) - 500)
    ensures |serialized| > Budget(maximum) ==>
      && kept == Kept(serialized, head, tail, Budget(maximum))
      && (rounds == 3 <==> ThirdRound(serialized, head, tail, Budget(maximum)))
  {
    var budget := Budget(maximum);
    if |serialized| <= budget { return serialized, 0, |serialized|; }
    var excerptLength: nat := Max(0, budget - 500);
    kept := excerptLength;
    content := Envelope(head, tail, serialized[..kept]);
    EnvelopeLength(head, tail, serialized, kept);
    rounds := 1;
    excerptLength := Shorter(excerptLength, |content|, budget);
    while |content| > budget && excerptLength > 0
      invariant rounds >= 1 && excerptLength <= kept <= |serialized|
      invariant content == Envelope(head, tail, serialized[..kept])
      invariant excerptLength == Shorter(kept, |content|, budget)
      invariant rounds == 1 ==> kept == budget - 500
      invariant rounds >= 2 ==> |content| <= budget + 5 && (!Splits(serialized, kept) ==> |content| <= budget)
      invariant rounds >= 2 ==> FirstAttempt(serialized, head, tail, budget) > budget && FirstAttempt(serialized, head, tail, budget) - budget < budget - 500
      invariant rounds <= 3 && (rounds == 3 ==> |content| <= budget)
      invariant |content| == Attempt(serialized, head, tail, kept)
      invariant rounds == 2 ==> kept == SecondCut(serialized, head, tail, budget)
      invariant rounds == 3 ==> ThirdRound(serialized, head, tail, budget) && kept == SecondCut(serialized, head, tail, budget) - 100
      invariant NeverSplits(serialized) ==> rounds <= 2
      decreases excerptLength
    {
      ShorterIsCheaper(serialized, excerptLength, kept);
      EnvelopeLength(head, tail, serialized, kept);
      EnvelopeLength(head, tail, serialized, excerptLength);
      kept := excerptLength;
      content := Envelope(head, tail, serialized[..kept]);
      rounds := rounds + 1;
      excerptLength := Shorter(excerptLength, |content|, budget);
    }
  }

  /** An overhead under 500 units (496 if the first cut splits a pair) is always enough. */
  lemma SmallOverheadSuffices(serialized: Str, head: Str, tail: Str, budget: int)
    requires Paired(serialized) && Printable(serialized) && 1000 <= budget < |serialized|
    requires Overhead(head, tail) < if Splits(serialized, budget - 500) then 496 else 500
    ensures FirstAttempt(serialized, head, tail, budget) - budget < budget - 500
  {
    var n, cost := budget - 500, |Escape(serialized[..budget - 500])|;
    assert cost <= 2 * n + (if Splits(serialized, n) then 4 else 0) by { ExcerptAtMostDouble(serialized, n); }
    assert FirstAttempt(serialized, head, tail, budget) == Overhead(head, tail) + cost;
  }

  // ----- Exactly when the result fits -----

  /** A second attempt over the budget can only be the six units of a half pair, and is over by at most five. */
  lemma SecondAttempt(serialized: Str, head: Str, tail: Str, budget: int)
    requires Paired(serialized) && Printable(serialized) && 1000 <= budget < |serialized| && !OneRound(serialized, head, tail, budget)
    ensures var n := SecondCut(serialized, head, tail, budget);
      n > 0 && Attempt(serialized, head, tail, n) <= budget + 5
      && (Attempt(serialized, head, tail, n) > budget ==> Splits(serialized, n))
      && (n > 100 ==> Attempt(serialized, head, tail, n - 100) <= budget)
  {
    var n := SecondCut(serialized, head, tail, budget);
    ShorterIsCheaper(serialized, n, budget - 500);
    if n > 100 { ShorterIsCheaper(serialized, n - 100, n); }
  }

  /**
   * The result is within the budget exactly when the first attempt did not overshoot by its whole excerpt, and a
   * second one that splits a pair and overshoots still keeps more than a hundred units to cut.
   */
  lemma EvidenceFitsIff(serialized: Str, head: Str, tail: Str, budget: int)
    requires Paired(serialized) && Printable(serialized) && 1000 <= budget < |serialized|
    ensures var n := SecondCut(serialized, head, tail, budget);
      Attempt(serialized, head, tail, Kept(serialized, head, tail, budget)) <= budget <==>
        && FirstAttempt(serialized, head, tail, budget) - budget < budget - 500
        && !(FirstAttempt(serialized, head, tail, budget) > budget
             && Splits(serialized, n) && Attempt(serialized, head, tail, n) > budget && n <= 100)
  {
    if !OneRound(serialized, head, tail, budget) { SecondAttempt(serialized, head, tail, budget); }
  }

  /** Under 500 units of overhead and without split pairs: at most two rounds, and the result fits. */
  lemma SmallOverheadFits(serialized: Str, head: Str, tail: Str, budget: int)
    requires Paired(serialized) && Printable(serialized) && 1000 <= budget < |serialized|
    requires Overhead(head, tail) < 500 && NeverSplits(serialized)
    ensures !ThirdRound(serialized, head, tail, budget)
    ensures Attempt(serialized, head, tail, Kept(serialized, head, tail, budget)) <= budget
  {
    SmallOverheadSuffices(serialized, head, tail, budget);
    EvidenceFitsIff(serialized, head, tail, budget);
    if !OneRound(serialized, head, tail, budget) { SecondAttempt(serialized, head, tail, budget); }
  }

  // ----- Serialized text is always paired and printable -----

  lemma {:induction false} PairedAppends(s: Str, t: Str)
    requires Paired(s) && Paired(t)
    ensures Paired(s + t)
    decreases |s|
  {
    if s == [] {
      assert s + t == t;
    } else {
      var k := Taken(s);
      PairedAppends(s[k..], t);
      assert (s + t)[k..] == s[k..] + t;
    }
  }

  lemma ChunkIsPlain(s: Str)
    requires s != []
    ensures Paired(Chunk(s)) && Printable(Chunk(s))
  {
    var c := Chunk(s);
    if Taken(s) == 2 {
      assert c[2..] == [];
    } else {
      PlainUnits(c);
    }
  }

  lemma {:induction false} PlainUnits(s: Str)
    requires forall i | 0 <= i < |s| :: !High(s[i]) && !Low(s[i])
    ensures Paired(s)
  {
    if s != [] { PlainUnits(s[1..]); }
  }

  /** Whatever a string holds, its serialized form meets what the loop relies on. */
  lemma {:induction false} EscapeIsPlain(s: Str)
    ensures Paired(Escape(s)) && Printable(Escape(s))
    decreases |s|
  {
    if s != [] {
      ChunkIsPlain(s);
      EscapeIsPlain(s[Taken(s)..]);
      PairedAppends(Chunk(s), Escape(s[Taken(s)..]));
    }
  }

  predicate Plain(s: Str) { Paired(s) && Printable(s) }

  lemma PlainAppends(s: Str, t: Str)
    requires Plain(s) && Plain(t)
    ensures Plain(s + t)
  {
    PairedAppends(s, t);
  }

  /** Printable ASCII. */
  type Ascii = c: Unit | 32 <= c < 128 witness 32

  lemma AsciiText(s: seq<Ascii>)
    ensures Plain(s)
  {
    PlainUnits(s);
  }

  lemma AsciiIsPlain(s: Str)
    requires forall i | 0 <= i < |s| :: 32 <= s[i] < 128
    ensures Plain(s)
  {
    PlainUnits(s);
  }

  lemma QuoteIsPlain(s: Str)
    ensures Plain(Quote(s))
  {
    EscapeIsPlain(s);
    AsciiIsPlain([34]);
    PlainAppends([34], Escape(s));
    PlainAppends([34] + Escape(s), [34]);
  }

  /** The program's serializer: fields in their own order. */
  function Stringify(v: CanonicalPrinter.Json): Str
    decreases v, 0
  {
    match v
    case Null => CanonicalPrinter.NULL
    case Bool(b) => if b then CanonicalPrinter.TRUE else CanonicalPrinter.FALSE
    case Num(l) => l
    case Text(s) => Quote(s)
    case Arr(items) => [91] + StringifyItems(items) + [93]
    case Obj(fields) => [123] + StringifyFields(fields) + [125]
  }

  function StringifyItems(items: seq<CanonicalPrinter.Json>): Str
    decreases items, 1
  {
    if items == [] then []
    else Stringify(items[0]) + (if |items| == 1 then [] else [44]) + StringifyItems(items[1..])
  }

  function StringifyFields(fields: seq<CanonicalPrinter.Field>): Str
    decreases fields, 1
  {
    if fields == [] then []
    else Quote(fields[0].key) + [58] + Stringify(fields[0].value) + (if |fields| == 1 then [] else [44]) + StringifyFields(fields[1..])
  }

  lemma FourPlain(a: Str, b: Str, c: Str, d: Str)
    requires Plain(a) && Plain(b) && Plain(c) && Plain(d)
    ensures Plain(a + b + c + d) && Plain(a + b + c)
  {
    PlainAppends(a, b);
    PlainAppends(a + b, c);
    PlainAppends(a + b + c, d);
  }

  /** Whatever is serialized, the whole text meets what the loop relies on. */
  lemma {:induction false} SerializedIsPlain(v: CanonicalPrinter.Json)
    requires CanonicalPrinter.Wf(v)
    ensures Plain(Stringify(v))
    decreases v, 0
  {
    match v
    case Text(s) => QuoteIsPlain(s);
    case Arr(items) =>
      ItemsArePlain(items);
      AsciiIsPlain([91]);
      AsciiIsPlain([93]);
      FourPlain([91], StringifyItems(items), [93], []);
    case Obj(fields) =>
      FieldsArePlain(fields);
      AsciiIsPlain([123]);
      AsciiIsPlain([125]);
      FourPlain([123], StringifyFields(fields), [125], []);
    case _ => AsciiIsPlain(Stringify(v));
  }

  lemma {:induction false} ItemsArePlain(items: seq<CanonicalPrinter.Json>)
    requires forall i | 0 <= i < |items| :: CanonicalPrinter.Wf(items[i])
    ensures Plain(StringifyItems(items))
    decreases items, 1
  {
    if items != [] {
      SerializedIsPlain(items[0]);
      ItemsArePlain(items[1..]);
      var comma: Str := if |items| == 1 then [] else [44];
      AsciiIsPlain(comma);
      FourPlain(Stringify(items[0]), comma, StringifyItems(items[1..]), []);
    }
  }

  lemma {:induction false} FieldsArePlain(fields: seq<CanonicalPrinter.Field>)
    requires forall i | 0 <= i < |fields| :: CanonicalPrinter.Wf(fields[i].value)
    ensures Plain(StringifyFields(fields))
    decreases fields, 1
  {
    if fields != [] {
      QuoteIsPlain(fields[0].key);
      SerializedIsPlain(fields[0].value);
      FieldsArePlain(fields[1..]);
      var comma: Str := if |fields| == 1 then [] else [44];
      AsciiIsPlain(comma);
      AsciiIsPlain([58]);
      FourPlain(Quote(fields[0].key), [58], Stringify(fields[0].value), comma);
      PlainAppends(Quote(fields[0].key) + [58] + Stringify(fields[0].value) + comma, StringifyFields(fields[1..]));
    }
  }
}
