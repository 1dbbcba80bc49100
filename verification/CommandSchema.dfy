/** The bounded command schema: its validator with a shared node budget, and value validation. */
module CommandSchema {
  import opened Outcomes

  datatype Format = Uuid | Sha256 | GitRevision | DnsName | Semver

  /** Which texts a named format admits. */
  type Formats = (Format, string) -> bool

  datatype Number = Finite(r: real) | NotFinite

  datatype Value =
    | NullValue | BoolValue(b: bool) | NumberValue(n: Number) | TextValue(s: string)
    | ArrayValue(items: seq<Value>) | ObjectValue(fields: seq<Member>)
  datatype Member = Member(name: string, value: Value)

  /** A numeric keyword: missing, of a wrong type, or given. */
  datatype Count = NoCount | BadCount | Count(n: int)
  datatype Limit = BadLimit | Limit(r: real)
  datatype Description = NoDescription | BadDescription | Described(length: nat)
  datatype FormatName = NoFormat | UnknownFormat | Named(f: Format)
  datatype Enum = NoEnum | BadEnum | Members(values: seq<Value>)
  datatype Properties = BadProperties | Declared(list: seq<Property>)
  datatype Property = Property(name: string, schema: Schema)
  datatype Required = BadRequired | Names(list: seq<string>)

  datatype Body =
    | TextBody(minLength: Count, maxLength: Count, format: FormatName)
    | NumberBody(integral: bool, minimum: Limit, maximum: Limit)
    | BoolBody
    | ObjectBody(sealed: bool, properties: Properties, required: Required)
    | ArrayBody(minItems: Count, maxItems: Count, items: Schema)
    | UnknownBody

  /** A candidate schema; `foreign` says it has a field its type does not allow. */
  datatype Schema = NotAnObject | Node(foreign: bool, description: Description, enum: Enum, body: Body)

  const MAX_NODES := 256
  const MAX_DEPTH := 6
  const MAX_SAFE: real := 9007199254740991.0

  predicate SafeInteger(r: real) { r == r.Floor as real && -MAX_SAFE <= r <= MAX_SAFE }

  predicate Scalar(v: Value) { v.BoolValue? || v.NumberValue? || v.TextValue? }

  predicate Distinct<T(==)>(s: seq<T>) { forall i, j | 0 <= i < j < |s| :: s[i] != s[j] }

  predicate CountIn(c: Count, low: int, high: int) { c.Count? && low <= c.n <= high }

  function CountOr(c: Count, default: int): int { if c.Count? then c.n else default }

  predicate SafeName(n: string) {
    && 1 <= |n| <= 48 && 'a' <= n[0] <= 'z'
    && (forall i | 0 <= i < |n| :: 'a' <= n[i] <= 'z' || 'A' <= n[i] <= 'Z' || '0' <= n[i] <= '9')
    && n != "constructor" && n != "prototype"
  }

  predicate Declares(ps: seq<Property>, name: string) { exists i :: 0 <= i < |ps| && ps[i].name == name }

  function Find(ps: seq<Property>, name: string): (i: nat)
    requires Declares(ps, name)
    ensures i < |ps| && ps[i].name == name
  {
    if ps[0].name == name then 0 else 1 + Find(ps[1..], name)
  }

  predicate Owns(fields: seq<Member>, name: string) { exists i :: 0 <= i < |fields| && fields[i].name == name }

  // ----- Values against a schema -----

  predicate TextFits(m: Formats, b: Body, v: Value)
    requires b.TextBody?
  {
    && v.TextValue? && CountOr(b.minLength, 0) <= |v.s| && b.maxLength.Count? && |v.s| <= b.maxLength.n
    && (b.format.Named? ==> m(b.format.f, v.s))
  }

  predicate NumberFits(b: Body, v: Value)
    requires b.NumberBody?
  {
    && v.NumberValue? && v.n.Finite? && (b.integral ==> SafeInteger(v.n.r))
    && b.minimum.Limit? && b.maximum.Limit? && b.minimum.r <= v.n.r <= b.maximum.r
  }

  /** The checks made at one position, without looking below it. */
  predicate FitsHere(m: Formats, s: Schema, v: Value) {
    && s.Node?
    && (s.enum.Members? ==> v in s.enum.values)
    && match s.body
       case TextBody(_, _, _) => TextFits(m, s.body, v)
       case NumberBody(_, _, _) => NumberFits(s.body, v)
       case BoolBody => v.BoolValue?
       case ObjectBody(_, ps, rs) =>
         && v.ObjectValue? && ps.Declared? && rs.Names?
         && (forall i | 0 <= i < |v.fields| :: Declares(ps.list, v.fields[i].name))
         && (forall i | 0 <= i < |rs.list| :: Owns(v.fields, rs.list[i]))
       case ArrayBody(low, high, _) =>
         v.ArrayValue? && CountOr(low, 0) <= |v.items| && high.Count? && |v.items| <= high.n
       case UnknownBody => false
  }

  predicate ValidateValue(m: Formats, s: Schema, v: Value)
    decreases v
  {
    && FitsHere(m, s, v)
    && match v
       case ObjectValue(fields) =>
         forall i | 0 <= i < |fields| ::
           ValidateValue(m, s.body.properties.list[Find(s.body.properties.list, fields[i].name)].schema, fields[i].value)
       case ArrayValue(items) => forall i | 0 <= i < |items| :: ValidateValue(m, s.body.items, items[i])
       case _ => true
  }

  // ----- Schemas -----

  predicate EnumShape(e: Enum) {
    match e
    case NoEnum => true
    case BadEnum => false
    case Members(vs) => 1 <= |vs| <= 64 && (forall i | 0 <= i < |vs| :: Scalar(vs[i])) && Distinct(vs)
  }

  predicate BodyShape(b: Body) {
    match b
    case TextBody(low, high, f) =>
      CountIn(high, 1, 4096) && (low.NoCount? || CountIn(low, 0, high.n)) && !f.UnknownFormat?
    case NumberBody(_, low, high) =>
      low.Limit? && high.Limit? && low.r <= high.r && -MAX_SAFE <= low.r <= MAX_SAFE && -MAX_SAFE <= high.r <= MAX_SAFE
    case BoolBody => true
    case ObjectBody(sealed, ps, rs) =>
      && sealed && ps.Declared? && |ps.list| <= 32 && rs.Names? && Distinct(rs.list)
      && (forall i | 0 <= i < |rs.list| :: Declares(ps.list, rs.list[i]))
    case ArrayBody(low, high, _) => CountIn(high, 0, 64) && (low.NoCount? || CountIn(low, 0, high.n))
    case UnknownBody => false
  }

  predicate EnumConforms(m: Formats, s: Schema)
    requires s.Node?
  {
    s.enum.Members? ==> forall i | 0 <= i < |s.enum.values| :: ValidateValue(m, s.(enum := NoEnum), s.enum.values[i])
  }

  predicate DescriptionShape(d: Description) { d.NoDescription? || (d.Described? && d.length <= 500) }

  /** What one schema node must satisfy by itself. */
  predicate NodeShape(s: Schema) {
    s.Node? && !s.foreign && DescriptionShape(s.description) && EnumShape(s.enum) && BodyShape(s.body)
  }

  function Children(s: Schema): seq<Property> {
    if s.Node? && s.body.ObjectBody? && s.body.properties.Declared? then s.body.properties.list else []
  }

  /** Every node of the tree is well shaped, safely named and has conforming enum members. */
  predicate WellFormed(m: Formats, s: Schema) {
    && NodeShape(s) && EnumConforms(m, s)
    && (s.body.ObjectBody? ==>
          forall i | 0 <= i < |s.body.properties.list| ::
            SafeName(s.body.properties.list[i].name) && WellFormed(m, s.body.properties.list[i].schema))
    && (s.body.ArrayBody? ==> WellFormed(m, s.body.items))
  }

  function Size(s: Schema): (n: nat)
    ensures n >= 1
    decreases s, 0
  {
    match s
    case NotAnObject => 1
    case Node(_, _, _, ObjectBody(_, Declared(ps), _)) => 1 + SizeAll(ps)
    case Node(_, _, _, ArrayBody(_, _, items)) => 1 + Size(items)
    case _ => 1
  }

  function SizeAll(ps: seq<Property>): nat
    decreases ps, 1
  {
    if ps == [] then 0 else SizeAll(ps[..|ps| - 1]) + Size(ps[|ps| - 1].schema)
  }

  function Height(s: Schema): nat
    decreases s, 0
  {
    match s
    case Node(_, _, _, ObjectBody(_, Declared(ps), _)) => HeightAll(ps)
    case Node(_, _, _, ArrayBody(_, _, items)) => 1 + Height(items)
    case _ => 0
  }

  /** Height of an object over its properties: 0 without any, else one above the tallest. */
  function HeightAll(ps: seq<Property>): nat
    decreases ps, 1
  {
    if ps == [] then 0
    else
      var before, last := HeightAll(ps[..|ps| - 1]), 1 + Height(ps[|ps| - 1].schema);
      if last > before then last else before
  }

  class Budget {
    var nodes: nat
    constructor () ensures nodes == 0 { nodes := 0; }
  }

  predicate Fits(m: Formats, s: Schema, depth: nat, spent: nat) {
    WellFormed(m, s) && depth + Height(s) <= MAX_DEPTH && spent + Size(s) <= MAX_NODES
  }

  predicate AllFit(m: Formats, ps: seq<Property>, depth: nat, spent: nat) {
    && (forall i | 0 <= i < |ps| :: SafeName(ps[i].name) && WellFormed(m, ps[i].schema))
    && (ps != [] ==> depth + HeightAll(ps) <= MAX_DEPTH)
    && spent + SizeAll(ps) <= MAX_NODES
  }

  /** Recursion with the mutated budget accepts exactly the well-formed trees within both bounds. */
  method ValidateSchema(m: Formats, s: Schema, depth: nat, budget: Budget) returns (ok: bool)
    modifies budget
    ensures ok == Fits(m, s, depth, old(budget.nodes))
    ensures budget.nodes >= old(budget.nodes)
    ensures ok ==> budget.nodes == old(budget.nodes) + Size(s)
    decreases s, 1
  {
    budget.nodes := budget.nodes + 1;
    if budget.nodes > MAX_NODES || depth > MAX_DEPTH || s.NotAnObject? { return false; }
    if s.body.UnknownBody? || s.foreign { return false; }
    if !DescriptionShape(s.description) || !EnumShape(s.enum) || !BodyShape(s.body) { return false; }
    NodeFits(m, s, depth, old(budget.nodes));
    if s.body.ObjectBody? {
      ok := ValidateProperties(m, s.body.properties.list, depth, budget);
      if !ok { return; }
    } else if s.body.ArrayBody? {
      ok := ValidateSchema(m, s.body.items, depth + 1, budget);
      if !ok { return; }
    }
    return EnumConforms(m, s);
  }

  lemma NodeFits(m: Formats, s: Schema, depth: nat, spent: nat)
    requires NodeShape(s)
    ensures Fits(m, s, depth, spent) <==>
      && depth <= MAX_DEPTH && spent + 1 <= MAX_NODES && EnumConforms(m, s)
      && (s.body.ObjectBody? ==> AllFit(m, s.body.properties.list, depth, spent + 1))
      && (s.body.ArrayBody? ==> Fits(m, s.body.items, depth + 1, spent + 1))
  {
    assert Size(s) == if s.body.ObjectBody? then 1 + SizeAll(s.body.properties.list)
                      else if s.body.ArrayBody? then 1 + Size(s.body.items) else 1;
    assert Height(s) == if s.body.ObjectBody? then HeightAll(s.body.properties.list)
                        else if s.body.ArrayBody? then 1 + Height(s.body.items) else 0;
  }

  method ValidateProperties(m: Formats, ps: seq<Property>, depth: nat, budget: Budget) returns (ok: bool)
    requires depth <= MAX_DEPTH && budget.nodes <= MAX_NODES
    modifies budget
    ensures ok == AllFit(m, ps, depth, old(budget.nodes))
    ensures budget.nodes >= old(budget.nodes)
    ensures ok ==> budget.nodes == old(budget.nodes) + SizeAll(ps)
    decreases ps, 2
  {
    for k := 0 to |ps|
      invariant AllFit(m, ps[..k], depth, old(budget.nodes))
      invariant budget.nodes == old(budget.nodes) + SizeAll(ps[..k])
    {
      NextFits(m, ps, k, depth, old(budget.nodes));
      if !SafeName(ps[k].name) { return false; }
      var fits := ValidateSchema(m, ps[k].schema, depth + 1, budget);
      if !fits { return false; }
    }
    assert ps[..|ps|] == ps;
    return true;
  }

  /** With the first `k` properties accepted, property `k` decides whether the next prefix, or none, is. */
  lemma NextFits(m: Formats, ps: seq<Property>, k: nat, depth: nat, spent: nat)
    requires k < |ps| && AllFit(m, ps[..k], depth, spent)
    ensures var fits := SafeName(ps[k].name) && Fits(m, ps[k].schema, depth + 1, spent + SizeAll(ps[..k]));
      (fits ==> AllFit(m, ps[..k + 1], depth, spent)) && (!fits ==> !AllFit(m, ps, depth, spent))
    ensures SizeAll(ps[..k + 1]) == SizeAll(ps[..k]) + Size(ps[k].schema)
  {
    PrefixFits(m, ps, k, depth, spent);
  }

  /** All properties fit exactly when the first `k` do, property `k` does, and the rest still do. */
  lemma PrefixFits(m: Formats, ps: seq<Property>, k: nat, depth: nat, spent: nat)
    requires k < |ps|
    ensures AllFit(m, ps, depth, spent) ==> AllFit(m, ps[..k + 1], depth, spent)
    ensures AllFit(m, ps[..k + 1], depth, spent) <==>
      && AllFit(m, ps[..k], depth, spent)
      && SafeName(ps[k].name) && Fits(m, ps[k].schema, depth + 1, spent + SizeAll(ps[..k]))
    ensures SizeAll(ps[..k + 1]) == SizeAll(ps[..k]) + Size(ps[k].schema)
  {
    assert ps[..k + 1][..k] == ps[..k];
    PrefixSmaller(ps, k + 1);
  }

  lemma {:induction false} PrefixSmaller(ps: seq<Property>, k: nat)
    requires k <= |ps|
    ensures SizeAll(ps[..k]) <= SizeAll(ps) && HeightAll(ps[..k]) <= HeightAll(ps)
    decreases |ps|
  {
    if k == |ps| {
      assert ps[..k] == ps;
    } else {
      PrefixSmaller(ps[..|ps| - 1], k);
      assert ps[..|ps| - 1][..k] == ps[..k];
    }
  }

  // ----- What an accepted schema promises about its enum -----

  /** A schema with an enum describes scalars, and accepts every one of its own members. */
  lemma EnumMembersAreAccepted(m: Formats, s: Schema)
    requires WellFormed(m, s) && s.enum.Members?
    ensures s.body.TextBody? || s.body.NumberBody? || s.body.BoolBody?
    ensures forall i | 0 <= i < |s.enum.values| :: ValidateValue(m, s, s.enum.values[i])
  {
    assert Scalar(s.enum.values[0]);
    assert ValidateValue(m, s.(enum := NoEnum), s.enum.values[0]);
    forall i | 0 <= i < |s.enum.values| ensures ValidateValue(m, s, s.enum.values[i]) {
      assert Scalar(s.enum.values[i]);
      assert ValidateValue(m, s.(enum := NoEnum), s.enum.values[i]);
    }
  }

  // ----- Conformance, position by position -----

  datatype Step = Key(name: string) | Index(i: nat)

  function ValueBelow(v: Value, step: Step): Option<Value> {
    match step
    case Key(name) => if v.ObjectValue? && Owns(v.fields, name) then Some(v.fields[FindMember(v.fields, name)].value) else None
    case Index(i) => if v.ArrayValue? && i < |v.items| then Some(v.items[i]) else None
  }

  function SchemaBelow(s: Schema, step: Step): Option<Schema> {
    match step
    case Key(name) =>
      var ps := Children(s);
      if Declares(ps, name) then Some(ps[Find(ps, name)].schema) else None
    case Index(_) => if s.Node? && s.body.ArrayBody? then Some(s.body.items) else None
  }

  function FindMember(fields: seq<Member>, name: string): (i: nat)
    requires Owns(fields, name)
    ensures i < |fields| && fields[i].name == name
  {
    if fields[0].name == name then 0 else 1 + FindMember(fields[1..], name)
  }

  /** The value at a position, if the value has that position. */
  function ValueAt(v: Value, path: seq<Step>): Option<Value> {
    if path == [] then Some(v)
    else
      var w := ValueBelow(v, path[0]);
      if w.None? then None else ValueAt(w.value, path[1..])
  }

  function SchemaAt(s: Schema, path: seq<Step>): Option<Schema> {
    if path == [] then Some(s)
    else
      var t := SchemaBelow(s, path[0]);
      if t.None? then None else SchemaAt(t.value, path[1..])
  }

  /** What one value must meet by itself, told from the value's side. */
  predicate Meets(m: Formats, s: Schema, v: Value) {
    s.Node? && (s.enum.Members? ==> v in s.enum.values)
    && match v
       case NullValue => false
       case BoolValue(_) => s.body == BoolBody
       case NumberValue(NotFinite) => false
       case NumberValue(Finite(x)) =>
         && s.body.NumberBody? && s.body.minimum.Limit? && s.body.maximum.Limit?
         && s.body.minimum.r <= x && x <= s.body.maximum.r
         && (s.body.integral ==> x.Floor as real == x && -9007199254740991.0 <= x <= 9007199254740991.0)
       case TextValue(text) =>
         && s.body.TextBody? && s.body.maxLength.Count? && |text| <= s.body.maxLength.n
         && (s.body.minLength.Count? ==> s.body.minLength.n <= |text|)
         && (s.body.format.Named? ==> m(s.body.format.f, text))
       case ArrayValue(items) =>
         && s.body.ArrayBody? && s.body.maxItems.Count? && |items| <= s.body.maxItems.n
         && (s.body.minItems.Count? ==> s.body.minItems.n <= |items|)
       case ObjectValue(fields) =>
         && s.body.ObjectBody? && s.body.properties.Declared? && s.body.required.Names?
         && (forall f | f in fields :: Declares(s.body.properties.list, f.name))
         && (forall name | name in s.body.required.list :: Owns(fields, name))
  }

  lemma FitsHereIff(m: Formats, s: Schema, v: Value)
    ensures FitsHere(m, s, v) <==> Meets(m, s, v)
  {
    if v.ObjectValue? && s.Node? && s.body.ObjectBody? && s.body.properties.Declared? && s.body.required.Names? {
      ObjectFitsIff(v.fields, s.body.properties.list, s.body.required.list);
    }
  }

  lemma ObjectFitsIff(fields: seq<Member>, ps: seq<Property>, required: seq<string>)
    ensures (forall i | 0 <= i < |fields| :: Declares(ps, fields[i].name)) <==> (forall f | f in fields :: Declares(ps, f.name))
    ensures (forall i | 0 <= i < |required| :: Owns(fields, required[i])) <==> (forall name | name in required :: Owns(fields, name))
  {
    forall i | 0 <= i < |fields| ensures fields[i] in fields {}
    forall i | 0 <= i < |required| ensures required[i] in required {}
  }

  ghost predicate FitsAt(m: Formats, s: Schema, v: Value, path: seq<Step>) {
    ValueAt(v, path).Some? ==> SchemaAt(s, path).Some? && Meets(m, SchemaAt(s, path).value, ValueAt(v, path).value)
  }

  /** Every position of the value has a schema node and meets that node's own constraints. */
  ghost predicate Conforms(m: Formats, s: Schema, v: Value) {
    forall path :: FitsAt(m, s, v, path)
  }

  /** Objects have each field once, all the way down. */
  predicate IsJson(v: Value) {
    match v
    case ObjectValue(fields) =>
      (forall i, j | 0 <= i < j < |fields| :: fields[i].name != fields[j].name) && (forall i | 0 <= i < |fields| :: IsJson(fields[i].value))
    case ArrayValue(items) => forall i | 0 <= i < |items| :: IsJson(items[i])
    case _ => true
  }

  lemma FindMemberUnique(fields: seq<Member>, i: nat)
    requires i < |fields| && forall j, k | 0 <= j < k < |fields| :: fields[j].name != fields[k].name
    ensures Owns(fields, fields[i].name) && FindMember(fields, fields[i].name) == i
  {
  }

  lemma {:induction false} AcceptedFitsAt(m: Formats, s: Schema, v: Value, path: seq<Step>)
    requires ValidateValue(m, s, v)
    ensures FitsAt(m, s, v, path)
    decreases |path|
  {
    FitsHereIff(m, s, v);
    if path != [] && ValueBelow(v, path[0]).Some? {
      AcceptedBelow(m, s, v, path[0]);
      AcceptedFitsAt(m, SchemaBelow(s, path[0]).value, ValueBelow(v, path[0]).value, path[1..]);
    }
  }

  lemma AcceptedBelow(m: Formats, s: Schema, v: Value, step: Step)
    requires ValidateValue(m, s, v) && ValueBelow(v, step).Some?
    ensures SchemaBelow(s, step).Some? && ValidateValue(m, SchemaBelow(s, step).value, ValueBelow(v, step).value)
  {
    if step.Key? {
      var i := FindMember(v.fields, step.name);
      assert Declares(s.body.properties.list, v.fields[i].name);
    }
  }

  lemma ConformsBelow(m: Formats, s: Schema, v: Value, step: Step)
    requires Conforms(m, s, v) && ValueBelow(v, step).Some?
    ensures SchemaBelow(s, step).Some? && Conforms(m, SchemaBelow(s, step).value, ValueBelow(v, step).value)
  {
    assert [step][1..] == [];
    assert ValueAt(v, [step]) == ValueBelow(v, step);
    assert FitsAt(m, s, v, [step]);
    forall path ensures FitsAt(m, SchemaBelow(s, step).value, ValueBelow(v, step).value, path) {
      assert FitsAt(m, s, v, [step] + path);
      assert ([step] + path)[1..] == path;
    }
  }

  lemma {:induction false} ConformingIsAccepted(m: Formats, s: Schema, v: Value)
    requires Conforms(m, s, v) && IsJson(v)
    ensures ValidateValue(m, s, v)
    decreases v
  {
    assert FitsAt(m, s, v, []);
    FitsHereIff(m, s, v);
    match v {
      case ObjectValue(fields) =>
        var ps := s.body.properties.list;
        forall i | 0 <= i < |fields| ensures ValidateValue(m, ps[Find(ps, fields[i].name)].schema, fields[i].value) {
          FindMemberUnique(fields, i);
          ConformsBelow(m, s, v, Key(fields[i].name));
          ConformingIsAccepted(m, ps[Find(ps, fields[i].name)].schema, fields[i].value);
        }
      case ArrayValue(items) =>
        forall i | 0 <= i < |items| ensures ValidateValue(m, s.body.items, items[i]) {
          ConformsBelow(m, s, v, Index(i));
          ConformingIsAccepted(m, s.body.items, items[i]);
        }
      case _ =>
    }
  }

  /** The recursive validator accepts exactly the values that conform at every position. */
  lemma ValidateValueDecidesConforms(m: Formats, s: Schema, v: Value)
    requires IsJson(v)
    ensures ValidateValue(m, s, v) <==> Conforms(m, s, v)
  {
    if ValidateValue(m, s, v) {
      forall path ensures FitsAt(m, s, v, path) {
        AcceptedFitsAt(m, s, v, path);
      }
    }
    if Conforms(m, s, v) {
      ConformingIsAccepted(m, s, v);
    }
  }

  // ----- What an accepted schema looks like at every position -----

  predicate BadCountIn(c: Count, max: int) { c == BadCount || (c.Count? && (c.n < 0 || c.n > max)) }

  /** What makes a single node unacceptable. */
  predicate Violates(s: Schema) {
    match s
    case NotAnObject => true
    case Node(foreign, description, enum, body) =>
      || foreign
      || description == BadDescription || (description.Described? && description.length > 500)
      || enum == BadEnum
      || (enum.Members? && (enum.values == [] || |enum.values| > 64
                            || (exists v :: v in enum.values && (v.NullValue? || v.ArrayValue? || v.ObjectValue?))
                            || (exists i, j :: 0 <= i < j < |enum.values| && enum.values[i] == enum.values[j])))
      || match body
         case UnknownBody => true
         case BoolBody => false
         case TextBody(low, high, format) =>
           !high.Count? || high.n < 1 || high.n > 4096 || BadCountIn(low, high.n) || format == UnknownFormat
         case NumberBody(_, low, high) =>
           low == BadLimit || high == BadLimit || low.r > high.r || low.r < -9007199254740991.0 || high.r > 9007199254740991.0
         case ArrayBody(low, high, _) => !high.Count? || high.n < 0 || high.n > 64 || BadCountIn(low, high.n)
         case ObjectBody(closed, properties, required) =>
           !closed || properties == BadProperties || required == BadRequired || |properties.list| > 32
           || (exists i, j :: 0 <= i < j < |required.list| && required.list[i] == required.list[j])
           || (exists name :: name in required.list && !Declares(properties.list, name))
  }

  lemma ViolatesIff(s: Schema)
    ensures NodeShape(s) <==> !Violates(s)
  {
    if s.Node? && s.body.ObjectBody? && s.body.required.Names? {
      var names := s.body.required.list;
      forall i | 0 <= i < |names| ensures names[i] in names {}
    }
    if s.Node? && s.enum.Members? {
      forall i | 0 <= i < |s.enum.values| ensures s.enum.values[i] in s.enum.values {}
    }
  }

  predicate Letter(c: char) { 'a' <= c <= 'z' }

  /** A lower-case letter and at most 47 more letters and digits, other than two names of the language itself. */
  predicate FieldName(n: string) {
    n != [] && Letter(n[0]) && |n[1..]| <= 47
    && (forall c | c in n[1..] :: Letter(c) || 'A' <= c <= 'Z' || '0' <= c <= '9')
    && n !in {"constructor", "prototype"}
  }

  lemma SafeNameIff(n: string)
    ensures SafeName(n) <==> FieldName(n)
  {
    if n != [] {
      forall i | 0 < i < |n| ensures n[i] in n[1..] { assert n[1..][i - 1] == n[i]; }
    }
  }

  /** Objects declare each property once, all the way down. */
  predicate DistinctlyDeclared(s: Schema) {
    match s
    case NotAnObject => true
    case Node(_, _, _, ObjectBody(_, Declared(ps), _)) =>
      (forall i, j | 0 <= i < j < |ps| :: ps[i].name != ps[j].name) && (forall i | 0 <= i < |ps| :: DistinctlyDeclared(ps[i].schema))
    case Node(_, _, _, ArrayBody(_, _, items)) => DistinctlyDeclared(items)
    case _ => true
  }

  ghost predicate SoundAt(m: Formats, s: Schema, path: seq<Step>) {
    SchemaAt(s, path).Some? ==>
      var t := SchemaAt(s, path).value;
      !Violates(t) && EnumConforms(m, t) && forall i | 0 <= i < |Children(t)| :: FieldName(Children(t)[i].name)
  }

  /** At every position of the schema no node violates its own limits, and every property is safely named. */
  ghost predicate Sound(m: Formats, s: Schema) { forall path :: SoundAt(m, s, path) }

  lemma FindUnique(ps: seq<Property>, i: nat)
    requires i < |ps| && forall j, k | 0 <= j < k < |ps| :: ps[j].name != ps[k].name
    ensures Declares(ps, ps[i].name) && Find(ps, ps[i].name) == i
  {
  }

  lemma {:induction false} WellFormedIsSound(m: Formats, s: Schema, path: seq<Step>)
    requires WellFormed(m, s)
    ensures SoundAt(m, s, path)
    decreases |path|
  {
    ViolatesIff(s);
    if path == [] {
      forall i | 0 <= i < |Children(s)| ensures FieldName(Children(s)[i].name) { SafeNameIff(Children(s)[i].name); }
    } else if SchemaBelow(s, path[0]).Some? {
      WellFormedIsSound(m, SchemaBelow(s, path[0]).value, path[1..]);
    }
  }

  lemma SoundBelow(m: Formats, s: Schema, step: Step)
    requires Sound(m, s) && SchemaBelow(s, step).Some?
    ensures Sound(m, SchemaBelow(s, step).value)
  {
    forall path ensures SoundAt(m, SchemaBelow(s, step).value, path) {
      assert SoundAt(m, s, [step] + path);
      assert ([step] + path)[1..] == path;
    }
  }

  lemma {:induction false} SoundIsWellFormed(m: Formats, s: Schema)
    requires Sound(m, s) && DistinctlyDeclared(s)
    ensures WellFormed(m, s)
    decreases s
  {
    assert SoundAt(m, s, []);
    ViolatesIff(s);
    if s.body.ObjectBody? {
      var ps := s.body.properties.list;
      forall i | 0 <= i < |ps| ensures SafeName(ps[i].name) && WellFormed(m, ps[i].schema) {
        SafeNameIff(ps[i].name);
        FindUnique(ps, i);
        SoundBelow(m, s, Key(ps[i].name));
        SoundIsWellFormed(m, ps[i].schema);
      }
    } else if s.body.ArrayBody? {
      SoundBelow(m, s, Index(0));
      SoundIsWellFormed(m, s.body.items);
    }
  }

  /** The validator accepts a schema exactly when it is sound at every position, has at most 256 nodes and six levels. */
  lemma FitsIff(m: Formats, s: Schema)
    requires DistinctlyDeclared(s)
    ensures Fits(m, s, 0, 0) <==> Sound(m, s) && Size(s) <= 256 && Height(s) <= 6
  {
    if WellFormed(m, s) {
      forall path ensures SoundAt(m, s, path) { WellFormedIsSound(m, s, path); }
    }
    if Sound(m, s) { SoundIsWellFormed(m, s); }
  }

  // ----- The size of accepted values -----

  function Nodes(v: Value): nat
    decreases v, 0
  {
    match v
    case ObjectValue(fields) => 1 + NodesOfFields(fields)
    case ArrayValue(items) => 1 + NodesOfItems(items)
    case _ => 1
  }

  function NodesOfFields(fields: seq<Member>): nat
    decreases fields, 1
  {
    if fields == [] then 0 else Nodes(fields[0].value) + NodesOfFields(fields[1..])
  }

  function NodesOfItems(items: seq<Value>): nat
    decreases items, 1
  {
    if items == [] then 0 else Nodes(items[0]) + NodesOfItems(items[1..])
  }

  /** 1 + 64 + ... + 64^levels. */
  function Tower(levels: nat): nat { if levels == 0 then 1 else 1 + 64 * Tower(levels - 1) }

  lemma {:induction false} FieldsBounded(fields: seq<Member>, bound: nat)
    requires forall i | 0 <= i < |fields| :: Nodes(fields[i].value) <= bound
    ensures NodesOfFields(fields) <= |fields| * bound
  {
    if fields != [] {
      FieldsBounded(fields[1..], bound);
      assert |fields| * bound == bound + (|fields| - 1) * bound;
    }
  }

  lemma {:induction false} ItemsBounded(items: seq<Value>, bound: nat)
    requires forall i | 0 <= i < |items| :: Nodes(items[i]) <= bound
    ensures NodesOfItems(items) <= |items| * bound
  {
    if items != [] {
      ItemsBounded(items[1..], bound);
      assert |items| * bound == bound + (|items| - 1) * bound;
    }
  }

  /** Distinct field names that are all declared are no more than the declarations. */
  lemma {:induction false} DeclaredLimitsFields(fields: seq<Member>, ps: seq<Property>)
    requires forall i, j | 0 <= i < j < |fields| :: fields[i].name != fields[j].name
    requires forall i | 0 <= i < |fields| :: Declares(ps, fields[i].name)
    ensures |fields| <= |ps|
  {
    if fields != [] {
      var k := Find(ps, fields[0].name);
      var rest := ps[..k] + ps[k + 1..];
      forall i | 0 <= i < |fields[1..]| ensures Declares(rest, fields[1..][i].name) {
        var j := Find(ps, fields[i + 1].name);
        assert rest[if j < k then j else j - 1] == ps[j];
      }
      DeclaredLimitsFields(fields[1..], rest);
    }
  }

  lemma {:induction false} HeightOfChild(ps: seq<Property>, k: nat)
    requires k < |ps|
    ensures 1 + Height(ps[k].schema) <= HeightAll(ps)
  {
    assert ps[..k + 1][..k] == ps[..k];
    PrefixSmaller(ps, k + 1);
  }

  lemma TowerStep(n: nat, k: nat, bound: nat)
    requires n <= 64 && bound <= Tower(k)
    ensures 1 + n * bound <= Tower(k + 1)
  {
    assert n * bound <= 64 * bound <= 64 * Tower(k) by {
      assert (64 - n) * bound >= 0;
    }
  }

  /** A value accepted under a schema of bounded height is itself bounded. */
  lemma {:induction false} AcceptedIsBounded(m: Formats, s: Schema, v: Value, levels: nat)
    requires WellFormed(m, s) && Height(s) <= levels && ValidateValue(m, s, v) && IsJson(v)
    ensures Nodes(v) <= Tower(levels)
    decreases v, 2
  {
    TowerGrows(levels);
    match v {
      case ObjectValue(fields) =>
        if fields != [] {
          HeightOfChild(s.body.properties.list, Find(s.body.properties.list, fields[0].name));
          ObjectIsBounded(m, s, v, levels - 1);
        }
      case ArrayValue(items) => ArrayIsBounded(m, s, v, levels - 1);
      case _ =>
    }
  }

  lemma {:induction false} ObjectIsBounded(m: Formats, s: Schema, v: Value, below: nat)
    requires WellFormed(m, s) && Height(s) <= below + 1 && ValidateValue(m, s, v) && IsJson(v) && v.ObjectValue?
    ensures Nodes(v) <= Tower(below + 1)
    decreases v, 1
  {
    var ps := s.body.properties.list;
    assert Height(s) == HeightAll(ps);
    DeclaredLimitsFields(v.fields, ps);
    forall i | 0 <= i < |v.fields| ensures Nodes(v.fields[i].value) <= Tower(below) {
      var k := Find(ps, v.fields[i].name);
      HeightOfChild(ps, k);
      AcceptedIsBounded(m, ps[k].schema, v.fields[i].value, below);
    }
    FieldsBounded(v.fields, Tower(below));
    TowerStep(|v.fields|, below, Tower(below));
  }

  lemma {:induction false} ArrayIsBounded(m: Formats, s: Schema, v: Value, below: nat)
    requires WellFormed(m, s) && Height(s) <= below + 1 && ValidateValue(m, s, v) && IsJson(v) && v.ArrayValue?
    ensures Nodes(v) <= Tower(below + 1)
    decreases v, 1
  {
    forall i | 0 <= i < |v.items| ensures Nodes(v.items[i]) <= Tower(below) {
      AcceptedIsBounded(m, s.body.items, v.items[i], below);
    }
    ItemsBounded(v.items, Tower(below));
    TowerStep(|v.items|, below, Tower(below));
  }

  lemma TowerGrows(levels: nat)
    ensures Tower(levels) >= 1
  {
  }

  /** Whatever an accepted schema accepts has at most 1 + 64 + ... + 64^6 nodes. */
  lemma AcceptedCommandIsBounded(m: Formats, s: Schema, v: Value)
    requires Fits(m, s, 0, 0) && ValidateValue(m, s, v) && IsJson(v)
    ensures Nodes(v) <= Tower(6)
  {
    AcceptedIsBounded(m, s, v, 6);
  }
}
