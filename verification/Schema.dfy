/** JSON Schemas as data, what they admit, and the structural subtyping the contracts rely on. */
module Schemas {
  import opened Wrappers

  datatype Json =
    | Null
    | Bool(value: bool)
    | Num(number: real)
    | Str(text: string)
    | Arr(elements: seq<Json>)
    | Obj(members: map<string, Json>)
    | Fn(id: nat)

  /** `notes` are annotations, `constraints` the keywords compared by equality, `other` every keyword not modelled. */
  datatype Schema = Schema(
    notes: map<string, Json>,
    types: Option<seq<string>>,
    constant: Option<Json>,
    values: Option<seq<Json>>,
    anyOf: Branches,
    constraints: map<string, Json>,
    properties: Fields,
    required: Option<seq<string>>,
    additional: Additional,
    patterns: Fields,
    items: Items,
    moreItems: Option<bool>,
    parameters: Parameters,
    result: Result,
    other: map<string, Json>)

  datatype Field = Field(name: string, schema: Schema)
  datatype Fields = NoFields | Fields(list: seq<Field>)
  datatype Branches = NoBranches | Branches(list: seq<Schema>)
  datatype Additional = Unsaid | Flag(allowed: bool) | Extra(schema: Schema)
  datatype Items = NoItems | Each(schema: Schema) | Tuple(list: seq<Schema>)
  datatype Parameters = NoParameters | Parameters(list: seq<Schema>)
  datatype Result = NoResult | Result(schema: Schema)

  const ANY := Schema(map[], None, None, None, NoBranches, map[], NoFields, None, Unsaid, NoFields, NoItems,
                      None, NoParameters, NoResult, map[])

  /** What is outside the schemas: regular expressions, the constraint keywords, and what functions return. */
  datatype World = World(
    matches: (string, string) -> bool,
    satisfies: (string, Json, Json) -> bool,
    obeys: (string, Json, Json) -> bool,
    call: (nat, seq<Json>) -> Json)

  // ---------------------------------------------------------------- reading a schema

  function Listed(f: Fields): (r: seq<Field>)
    ensures forall i :: 0 <= i < |r| ==> r[i].schema < f
  {
    if f.Fields? then f.list else []
  }

  predicate Has(f: seq<Field>, name: string) {
    exists i :: 0 <= i < |f| && f[i].name == name
  }

  function Given(s: Option<seq<string>>): seq<string> {
    if s.Some? then s.value else []
  }

  function ItemOf(i: Items): Schema {
    if i.Each? then i.schema else ANY
  }

  function ParametersOf(p: Parameters): seq<Schema> {
    if p.Parameters? then p.list else []
  }

  function ResultOf(r: Result): Schema {
    if r.Result? then r.schema else ANY
  }

  /** The schema under a name; an absent one admits anything. */
  function At(f: seq<Field>, name: string): (r: Schema)
    requires Has(f, name)
    ensures exists i :: 0 <= i < |f| && f[i].name == name && f[i].schema == r
    decreases |f|
  {
    if f[0].name == name then f[0].schema
    else
      assert forall i :: 0 <= i < |f| && f[i].name == name ==> i > 0 && f[1..][i - 1] == f[i];
      At(f[1..], name)
  }

  /** What of a schema is compared. */
  function Bare(s: Schema): Schema {
    s.(notes := map[])
  }

  // ---------------------------------------------------------------- what a schema admits

  predicate IsType(t: string, v: Json) {
    match v
    case Null => t == "null"
    case Bool(_) => t == "boolean"
    case Num(x) => t == "number" || (t == "integer" && x == x.Floor as real)
    case Str(_) => t == "string"
    case Arr(_) => t == "array"
    case Obj(_) => t == "object"
    case Fn(_) => t == "function"
  }

  predicate Named(w: World, s: Schema, name: string) {
    Has(Listed(s.properties), name)
    || exists j :: 0 <= j < |Listed(s.patterns)| && w.matches(Listed(s.patterns)[j].name, name)
  }

  /** What does not look inside. */
  ghost predicate Keywords(w: World, s: Schema, v: Json) {
    && (s.types.Some? ==> exists t :: t in s.types.value && IsType(t, v))
    && (s.constant.Some? ==> v == s.constant.value)
    && (s.values.Some? ==> v in s.values.value)
    && (forall k :: k in s.constraints ==> w.satisfies(k, s.constraints[k], v))
    && (forall k :: k in s.other ==> w.obeys(k, s.other[k], v))
  }

  /**
   Whether `s` admits `v`.  `tidy`: objects moreover carry only names that `s` knows, as a caller sends them after
   stripping with its own schema.  A function conforms when it takes what its parameters admit and returns what
   its result admits, neither of them stripped; arguments past the ones it declares are ignored.
   */
  ghost predicate Conforms(w: World, tidy: bool, s: Schema, v: Json)
    decreases s, 2
  {
    && Keywords(w, s, v)
    && UnionConforms(w, tidy, s, v)
    && (v.Obj? ==> ObjectConforms(w, tidy, s, v.members))
    && (v.Arr? ==> ArrayConforms(w, tidy, s, v.elements))
    && (v.Fn? ==> FunctionConforms(w, s, v.id))
  }

  ghost predicate UnionConforms(w: World, tidy: bool, s: Schema, v: Json)
    decreases s, 0
  {
    s.anyOf.Branches? ==> exists i :: 0 <= i < |s.anyOf.list| && Conforms(w, tidy, s.anyOf.list[i], v)
  }

  ghost predicate ObjectConforms(w: World, tidy: bool, s: Schema, members: map<string, Json>)
    decreases s, 0
  {
    && (forall n :: n in Given(s.required) ==> n in members)
    && (forall i :: 0 <= i < |Listed(s.properties)| && Listed(s.properties)[i].name in members ==>
          Conforms(w, tidy, Listed(s.properties)[i].schema, members[Listed(s.properties)[i].name]))
    && (forall j, n :: 0 <= j < |Listed(s.patterns)| && n in members && w.matches(Listed(s.patterns)[j].name, n) ==>
          Conforms(w, tidy, Listed(s.patterns)[j].schema, members[n]))
    && (forall n :: n in members && !Named(w, s, n) ==>
          && s.additional != Flag(false)
          && (s.additional.Extra? ==> Conforms(w, tidy, s.additional.schema, members[n]))
          && (tidy && "object" in Given(s.types) ==> s.additional.Extra?))
  }

  ghost predicate ArrayConforms(w: World, tidy: bool, s: Schema, elements: seq<Json>)
    decreases s, 0
  {
    && (s.items.Each? ==> forall i :: 0 <= i < |elements| ==> Conforms(w, tidy, s.items.schema, elements[i]))
    && (s.items.Tuple? ==>
          && (forall i :: 0 <= i < |elements| && i < |s.items.list| ==> Conforms(w, tidy, s.items.list[i], elements[i]))
          && (s.moreItems == Some(false) ==> |elements| <= |s.items.list|))
  }

  ghost predicate FunctionConforms(w: World, s: Schema, id: nat)
    decreases s, 1
  {
    s.result.Result? ==> forall args :: Accepted(w, s, args) ==> Conforms(w, false, s.result.schema, w.call(id, args))
  }

  /** The arguments a function must take. */
  ghost predicate Accepted(w: World, s: Schema, args: seq<Json>)
    decreases s, 0
  {
    s.parameters.Parameters? ==>
      |args| >= |s.parameters.list|
      && forall i :: 0 <= i < |s.parameters.list| ==> Conforms(w, false, s.parameters.list[i], args[i])
  }

  /** Tidy values are values. */
  lemma TidyConforms(w: World, s: Schema, v: Json)
    requires Conforms(w, true, s, v)
    ensures Conforms(w, false, s, v)
    decreases s
  {
    if s.anyOf.Branches? {
      var i :| 0 <= i < |s.anyOf.list| && Conforms(w, true, s.anyOf.list[i], v);
      TidyConforms(w, s.anyOf.list[i], v);
    }
    match v
    case Obj(members) => TidyObject(w, s, members);
    case Arr(elements) => TidyArray(w, s, elements);
    case _ =>
  }

  lemma TidyObject(w: World, s: Schema, members: map<string, Json>)
    requires ObjectConforms(w, true, s, members)
    ensures ObjectConforms(w, false, s, members)
    decreases s, 0
  {
    var p, q := Listed(s.properties), Listed(s.patterns);
    forall i | 0 <= i < |p| && p[i].name in members ensures Conforms(w, false, p[i].schema, members[p[i].name]) {
      TidyConforms(w, p[i].schema, members[p[i].name]);
    }
    forall j, n | 0 <= j < |q| && n in members && w.matches(q[j].name, n) ensures Conforms(w, false, q[j].schema, members[n]) {
      TidyConforms(w, q[j].schema, members[n]);
    }
    forall n | n in members && !Named(w, s, n) && s.additional.Extra? ensures Conforms(w, false, s.additional.schema, members[n]) {
      TidyConforms(w, s.additional.schema, members[n]);
    }
  }

  lemma TidyArray(w: World, s: Schema, elements: seq<Json>)
    requires ArrayConforms(w, true, s, elements)
    ensures ArrayConforms(w, false, s, elements)
    decreases s, 0
  {
    forall i | 0 <= i < |elements| ensures s.items.Each? ==> Conforms(w, false, s.items.schema, elements[i]) {
      if s.items.Each? { TidyConforms(w, s.items.schema, elements[i]); }
    }
    forall i | 0 <= i < |elements| && s.items.Tuple? && i < |s.items.list|
      ensures Conforms(w, false, s.items.list[i], elements[i])
    {
      TidyConforms(w, s.items.list[i], elements[i]);
    }
  }

  // ---------------------------------------------------------------- the size of a schema

  /** The children of a schema weigh less than it does. */
  ghost predicate Bounds(n: nat, s: Schema)
    decreases s, 3
  {
    && (s.anyOf.Branches? ==> forall i :: 0 <= i < |s.anyOf.list| ==> Weight(s.anyOf.list[i]) <= n)
    && (forall i :: 0 <= i < |Listed(s.properties)| ==> Weight(Listed(s.properties)[i].schema) <= n)
    && (forall i :: 0 <= i < |Listed(s.patterns)| ==> Weight(Listed(s.patterns)[i].schema) <= n)
    && (s.additional.Extra? ==> Weight(s.additional.schema) <= n)
    && (s.items.Each? ==> Weight(s.items.schema) <= n)
    && (s.items.Tuple? ==> forall i :: 0 <= i < |s.items.list| ==> Weight(s.items.list[i]) <= n)
    && (forall i :: 0 <= i < |ParametersOf(s.parameters)| ==> Weight(ParametersOf(s.parameters)[i]) <= n)
    && (s.result.Result? ==> Weight(s.result.schema) <= n)
  }

  function Weight(s: Schema): (n: nat)
    ensures n >= 1 && (s != ANY ==> n >= 2)
    decreases s, 2
  {
    if s == ANY then 1 else 2 + Inside(s)
  }

  function Inside(s: Schema): nat
    decreases s, 1
  {
    (if s.anyOf.Branches? then Total(s, s.anyOf.list) else 0)
    + TotalFields(s, Listed(s.properties)) + TotalFields(s, Listed(s.patterns))
    + (if s.additional.Extra? then Weight(s.additional.schema) else 0)
    + (if s.items.Each? then Weight(s.items.schema) else if s.items.Tuple? then Total(s, s.items.list) else 0)
    + Total(s, ParametersOf(s.parameters))
    + (if s.result.Result? then Weight(s.result.schema) else 0)
  }

  lemma Lighter(s: Schema)
    ensures Bounds(Weight(s) - 1, s)
  {
  }

  function Total(ghost s: Schema, list: seq<Schema>): (n: nat)
    requires forall i :: 0 <= i < |list| ==> list[i] < s
    ensures forall i :: 0 <= i < |list| ==> Weight(list[i]) <= n
    decreases s, 0, |list|
  {
    if list == [] then 0
    else
      assert forall i :: 1 <= i < |list| ==> list[i] == list[1..][i - 1];
      Weight(list[0]) + Total(s, list[1..])
  }

  function TotalFields(ghost s: Schema, list: seq<Field>): (n: nat)
    requires forall i :: 0 <= i < |list| ==> list[i].schema < s
    ensures forall i :: 0 <= i < |list| ==> Weight(list[i].schema) <= n
    decreases s, 0, |list|
  {
    if list == [] then 0
    else
      assert forall i :: 1 <= i < |list| ==> list[i] == list[1..][i - 1];
      Weight(list[0].schema) + TotalFields(s, list[1..])
  }

  lemma {:induction false} TotalSame(s: Schema, t: Schema, list: seq<Schema>)
    requires forall i :: 0 <= i < |list| ==> list[i] < s && list[i] < t
    ensures Total(s, list) == Total(t, list)
    decreases |list|
  {
    if list != [] {
      assert forall i :: 1 <= i < |list| ==> list[i] == list[1..][i - 1];
      TotalSame(s, t, list[1..]);
    }
  }

  lemma {:induction false} TotalFieldsSame(s: Schema, t: Schema, list: seq<Field>)
    requires forall i :: 0 <= i < |list| ==> list[i].schema < s && list[i].schema < t
    ensures TotalFields(s, list) == TotalFields(t, list)
    decreases |list|
  {
    if list != [] {
      assert forall i :: 1 <= i < |list| ==> list[i] == list[1..][i - 1];
      TotalFieldsSame(s, t, list[1..]);
    }
  }

  lemma BareInside(s: Schema)
    ensures Inside(Bare(s)) == Inside(s)
  {
    hide Weight, Total, TotalFields;
    var t := Bare(s);
    if s.anyOf.Branches? { TotalSame(s, t, s.anyOf.list); }
    TotalFieldsSame(s, t, Listed(s.properties));
    TotalFieldsSame(s, t, Listed(s.patterns));
    if s.items.Tuple? { TotalSame(s, t, s.items.list); }
    TotalSame(s, t, ParametersOf(s.parameters));
  }

  lemma BareLighter(s: Schema)
    ensures Weight(Bare(s)) <= Weight(s)
    ensures Bounds(Weight(Bare(s)) - 1, Bare(s))
  {
    BareInside(s);
    Lighter(Bare(s));
  }

  // ---------------------------------------------------------------- equality

  predicate SameNames(a: Fields, b: Fields) {
    && a.Fields? == b.Fields? && |Listed(a)| == |Listed(b)|
    && (forall i :: 0 <= i < |Listed(a)| ==> Has(Listed(b), Listed(a)[i].name))
    && (forall j :: 0 <= j < |Listed(b)| ==> Has(Listed(a), Listed(b)[j].name))
  }

  /** Equality of schemas as JSON: the order in which names are listed does not matter. */
  predicate Same(a: Schema, b: Schema)
    decreases a
  {
    && a.notes == b.notes && a.types == b.types && a.constant == b.constant && a.values == b.values
    && a.constraints == b.constraints && a.required == b.required && a.moreItems == b.moreItems && a.other == b.other
    && SameNames(a.properties, b.properties) && SameNames(a.patterns, b.patterns)
    && (forall i, j :: 0 <= i < |Listed(a.properties)| && 0 <= j < |Listed(b.properties)| ==>
          (Listed(a.properties)[i].name == Listed(b.properties)[j].name ==>
             Same(Listed(a.properties)[i].schema, Listed(b.properties)[j].schema)))
    && (forall i, j :: 0 <= i < |Listed(a.patterns)| && 0 <= j < |Listed(b.patterns)| ==>
          (Listed(a.patterns)[i].name == Listed(b.patterns)[j].name ==>
             Same(Listed(a.patterns)[i].schema, Listed(b.patterns)[j].schema)))
    && (if a.additional.Extra? then b.additional.Extra? && Same(a.additional.schema, b.additional.schema)
        else b.additional == a.additional)
    && (match a.anyOf
        case NoBranches => b.anyOf.NoBranches?
        case Branches(x) =>
          b.anyOf.Branches? && |x| == |b.anyOf.list| && forall i :: 0 <= i < |x| ==> Same(x[i], b.anyOf.list[i]))
    && (match a.items
        case NoItems => b.items.NoItems?
        case Each(x) => b.items.Each? && Same(x, b.items.schema)
        case Tuple(x) => b.items.Tuple? && |x| == |b.items.list| && forall i :: 0 <= i < |x| ==> Same(x[i], b.items.list[i]))
    && (match a.parameters
        case NoParameters => b.parameters.NoParameters?
        case Parameters(x) =>
          b.parameters.Parameters? && |x| == |b.parameters.list| && forall i :: 0 <= i < |x| ==> Same(x[i], b.parameters.list[i]))
    && (match a.result
        case NoResult => b.result.NoResult?
        case Result(x) => b.result.Result? && Same(x, b.result.schema))
  }

  /** Equal schemas admit the same. */
  lemma {:induction false} SameConforms(w: World, tidy: bool, a: Schema, b: Schema, v: Json)
    requires Same(a, b)
    ensures Conforms(w, tidy, a, v) <==> Conforms(w, tidy, b, v)
    decreases a, 3
  {
    SameKeywords(w, a, b);
    SameUnion(w, tidy, a, b, v);
    hide Same, Keywords, UnionConforms, ObjectConforms, ArrayConforms, FunctionConforms;
    match v
    case Obj(members) => SameObject(w, tidy, a, b, members);
    case Arr(elements) => SameArray(w, tidy, a, b, elements);
    case Fn(id) => SameFunction(w, a, b, id);
    case _ =>
  }

  lemma SameKeywords(w: World, a: Schema, b: Schema)
    requires Same(a, b)
    ensures forall v :: Keywords(w, a, v) <==> Keywords(w, b, v)
  {
  }

  lemma {:induction false} SameUnion(w: World, tidy: bool, a: Schema, b: Schema, v: Json)
    requires Same(a, b)
    ensures UnionConforms(w, tidy, a, v) <==> UnionConforms(w, tidy, b, v)
    decreases a, 2
  {
    hide Conforms;
    if a.anyOf.Branches? {
      forall i | 0 <= i < |a.anyOf.list|
        ensures Conforms(w, tidy, a.anyOf.list[i], v) <==> Conforms(w, tidy, b.anyOf.list[i], v)
      {
        SameConforms(w, tidy, a.anyOf.list[i], b.anyOf.list[i], v);
      }
    }
  }

  lemma NamesBoth(p: Fields, q: Fields, n: string)
    requires SameNames(p, q)
    ensures Has(Listed(p), n) == Has(Listed(q), n)
  {
    if Has(Listed(p), n) { var i :| 0 <= i < |Listed(p)| && Listed(p)[i].name == n; }
    if Has(Listed(q), n) { var j :| 0 <= j < |Listed(q)| && Listed(q)[j].name == n; }
  }

  lemma {:induction false} SameObject(w: World, tidy: bool, a: Schema, b: Schema, members: map<string, Json>)
    requires Same(a, b)
    ensures ObjectConforms(w, tidy, a, members) <==> ObjectConforms(w, tidy, b, members)
    decreases a, 2
  {
    SameProperties(w, tidy, a, b, members);
    SamePatterns(w, tidy, a, b, members);
    SameRest(w, tidy, a, b, members);
    hide Conforms, Named, Same;
  }

  lemma {:induction false} SameProperties(w: World, tidy: bool, a: Schema, b: Schema, members: map<string, Json>)
    requires Same(a, b)
    ensures var p, q := Listed(a.properties), Listed(b.properties);
            (forall i :: 0 <= i < |p| && p[i].name in members ==> Conforms(w, tidy, p[i].schema, members[p[i].name])) <==>
            (forall j :: 0 <= j < |q| && q[j].name in members ==> Conforms(w, tidy, q[j].schema, members[q[j].name]))
    decreases a, 1
  {
    hide Conforms;
    var p, q := Listed(a.properties), Listed(b.properties);
    forall i, j | 0 <= i < |p| && 0 <= j < |q| && p[i].name == q[j].name && p[i].name in members
      ensures Conforms(w, tidy, p[i].schema, members[p[i].name]) <==> Conforms(w, tidy, q[j].schema, members[q[j].name])
    {
      SameConforms(w, tidy, p[i].schema, q[j].schema, members[p[i].name]);
    }
    hide Same;
  }

  lemma {:induction false} SamePatterns(w: World, tidy: bool, a: Schema, b: Schema, members: map<string, Json>)
    requires Same(a, b)
    ensures var p, q := Listed(a.patterns), Listed(b.patterns);
            (forall i, n :: 0 <= i < |p| && n in members && w.matches(p[i].name, n) ==> Conforms(w, tidy, p[i].schema, members[n])) <==>
            (forall j, n :: 0 <= j < |q| && n in members && w.matches(q[j].name, n) ==> Conforms(w, tidy, q[j].schema, members[n]))
    ensures forall n :: Named(w, a, n) == Named(w, b, n)
    decreases a, 1
  {
    hide Conforms;
    var p, q := Listed(a.patterns), Listed(b.patterns);
    forall i, j, n | 0 <= i < |p| && 0 <= j < |q| && p[i].name == q[j].name && n in members
      ensures Conforms(w, tidy, p[i].schema, members[n]) <==> Conforms(w, tidy, q[j].schema, members[n])
    {
      SameConforms(w, tidy, p[i].schema, q[j].schema, members[n]);
    }
    forall n ensures Named(w, a, n) == Named(w, b, n) {
      NamesBoth(a.properties, b.properties, n);
    }
    hide Same;
  }

  lemma {:induction false} SameRest(w: World, tidy: bool, a: Schema, b: Schema, members: map<string, Json>)
    requires Same(a, b)
    ensures a.additional.Extra? == b.additional.Extra?
    ensures a.additional.Extra? ==> forall n :: n in members ==>
              (Conforms(w, tidy, a.additional.schema, members[n]) <==> Conforms(w, tidy, b.additional.schema, members[n]))
    ensures a.additional == Flag(false) <==> b.additional == Flag(false)
    decreases a, 1
  {
    hide Conforms;
    if a.additional.Extra? {
      forall n | n in members
        ensures Conforms(w, tidy, a.additional.schema, members[n]) <==> Conforms(w, tidy, b.additional.schema, members[n])
      {
        SameConforms(w, tidy, a.additional.schema, b.additional.schema, members[n]);
      }
    }
  }

  lemma {:induction false} SameArray(w: World, tidy: bool, a: Schema, b: Schema, elements: seq<Json>)
    requires Same(a, b)
    ensures ArrayConforms(w, tidy, a, elements) <==> ArrayConforms(w, tidy, b, elements)
    decreases a, 2
  {
    hide Conforms;
    forall i | 0 <= i < |elements| && a.items.Each?
      ensures Conforms(w, tidy, a.items.schema, elements[i]) <==> Conforms(w, tidy, b.items.schema, elements[i])
    {
      SameConforms(w, tidy, a.items.schema, b.items.schema, elements[i]);
    }
    forall i | 0 <= i < |elements| && a.items.Tuple? && i < |a.items.list|
      ensures Conforms(w, tidy, a.items.list[i], elements[i]) <==> Conforms(w, tidy, b.items.list[i], elements[i])
    {
      SameConforms(w, tidy, a.items.list[i], b.items.list[i], elements[i]);
    }
  }

  lemma {:induction false} SameFunction(w: World, a: Schema, b: Schema, id: nat)
    requires Same(a, b)
    ensures FunctionConforms(w, a, id) <==> FunctionConforms(w, b, id)
    decreases a, 2
  {
    hide Conforms, Accepted;
    forall args ensures Accepted(w, a, args) <==> Accepted(w, b, args) { SameAccepted(w, a, b, args); }
    if a.result.Result? {
      forall args
        ensures Conforms(w, false, a.result.schema, w.call(id, args)) <==> Conforms(w, false, b.result.schema, w.call(id, args))
      {
        SameConforms(w, false, a.result.schema, b.result.schema, w.call(id, args));
      }
    }
  }

  lemma {:induction false} SameAccepted(w: World, a: Schema, b: Schema, args: seq<Json>)
    requires Same(a, b)
    ensures Accepted(w, a, args) <==> Accepted(w, b, args)
    decreases a, 1
  {
    hide Conforms;
    if a.parameters.Parameters? && |args| >= |a.parameters.list| {
      forall i | 0 <= i < |a.parameters.list|
        ensures Conforms(w, false, a.parameters.list[i], args[i]) <==> Conforms(w, false, b.parameters.list[i], args[i])
      {
        SameConforms(w, false, a.parameters.list[i], b.parameters.list[i], args[i]);
      }
    }
  }

  // ---------------------------------------------------------------- subtyping

  predicate ValuesFit(sub: Schema, allowed: seq<Json>) {
    if sub.constant.Some? then sub.constant.value in allowed
    else sub.values.Some? && forall i :: 0 <= i < |sub.values.value| ==> sub.values.value[i] in allowed
  }

  predicate TypesFit(sub: seq<string>, sup: seq<string>) {
    forall t :: t in sub ==> t in sup || (t == "integer" && "number" in sup)
  }

  /** Conservative structural subtyping of the schema `sub` values are sent under and the one, `sup`, they are expected under. */
  predicate Fits(w: World, subSchema: Schema, supSchema: Schema)
    decreases Weight(subSchema) + Weight(supSchema), 4
  {
    BareLighter(subSchema);
    BareLighter(supSchema);
    var sub, sup := Bare(subSchema), Bare(supSchema);
    sup == ANY || Same(sub, sup) || (sup.other == map[] && !sup.additional.Extra? && Structural(w, sub, sup))
  }

  predicate Structural(w: World, sub: Schema, sup: Schema)
    decreases Weight(sub) + Weight(sup), 3
  {
    Lighter(sub);
    Lighter(sup);
    if sub.anyOf.Branches? then forall i :: 0 <= i < |sub.anyOf.list| ==> Fits(w, sub.anyOf.list[i], sup)
    else if sup.anyOf.Branches? then exists i :: 0 <= i < |sup.anyOf.list| && Fits(w, sub, sup.anyOf.list[i])
    else if sup.constant.Some? then sub.constant == sup.constant
    else if sup.values.Some? then ValuesFit(sub, sup.values.value)
    else Typed(w, sub, sup)
  }

  predicate Typed(w: World, sub: Schema, sup: Schema)
    decreases Weight(sub) + Weight(sup), 2
  {
    Lighter(sub);
    Lighter(sup);
    && (forall k :: k in sup.constraints ==> k in sub.constraints && sub.constraints[k] == sup.constraints[k])
    && sup.types.Some? && sub.types.Some?
    && TypesFit(sub.types.value, sup.types.value)
    && (sub.constant.Some? || sub.values.Some? ||
        (&& ("object" in sub.types.value ==> ObjectFits(w, sub, sup))
         && ("array" in sub.types.value ==> ArrayFits(w, sub, sup))
         && ("function" in sub.types.value ==> FunctionFits(w, sub, sup))))
  }

  predicate ObjectFits(w: World, sub: Schema, sup: Schema)
    decreases Weight(sub) + Weight(sup), 1
  {
    Lighter(sub);
    Lighter(sup);
    var subP, supP := Listed(sub.properties), Listed(sup.properties);
    && (forall n :: n in Given(sup.required) ==> n in Given(sub.required))
    && (forall j :: 0 <= j < |supP| ==>
          if Has(subP, supP[j].name) then Fits(w, At(subP, supP[j].name), supP[j].schema)
          else sub.additional.Extra? ==> Fits(w, sub.additional.schema, supP[j].schema))
    && (sup.additional == Flag(false) ==>
          sub.additional == Flag(false) && forall i :: 0 <= i < |subP| ==> Has(supP, subP[i].name))
    && (Listed(sup.patterns) != [] ==> PatternsFit(w, sub, sup))
  }

  predicate PatternsFit(w: World, sub: Schema, sup: Schema)
    decreases Weight(sub) + Weight(sup), 0
  {
    Lighter(sub);
    Lighter(sup);
    var subP, supP := Listed(sub.properties), Listed(sup.properties);
    var subR, supR := Listed(sub.patterns), Listed(sup.patterns);
    && (sub.additional == Flag(false) || subR != [])
    && (forall j, i :: 0 <= j < |supR| && 0 <= i < |subP| ==>
          (!Has(supP, subP[i].name) && w.matches(supR[j].name, subP[i].name) ==> Fits(w, subP[i].schema, supR[j].schema)))
    && (subR != [] ==> forall j :: 0 <= j < |supR| ==>
          Has(subR, supR[j].name) && Fits(w, At(subR, supR[j].name), supR[j].schema))
    && (forall i :: 0 <= i < |subR| ==> Has(supR, subR[i].name))
  }

  predicate ArrayFits(w: World, sub: Schema, sup: Schema)
    requires sub != ANY && sup != ANY
    decreases Weight(sub) + Weight(sup), 1
  {
    Lighter(sub);
    Lighter(sup);
    if sup.items.Tuple? then
      && sub.items.Tuple? && |sub.items.list| == |sup.items.list|
      && forall i :: 0 <= i < |sub.items.list| ==> Fits(w, sub.items.list[i], sup.items.list[i])
    else if sub.items.Tuple? then forall i :: 0 <= i < |sub.items.list| ==> Fits(w, sub.items.list[i], ItemOf(sup.items))
    else Fits(w, ItemOf(sub.items), ItemOf(sup.items))
  }

  /** Parameters the other way round, as many as `sub` declares; results the same way. */
  predicate FunctionFits(w: World, sub: Schema, sup: Schema)
    requires sub != ANY && sup != ANY
    decreases Weight(sub) + Weight(sup), 1
  {
    Lighter(sub);
    Lighter(sup);
    var subP, supP := ParametersOf(sub.parameters), ParametersOf(sup.parameters);
    && |subP| <= |supP|
    && (forall i :: 0 <= i < |subP| ==> Fits(w, supP[i], subP[i]))
    && Fits(w, ResultOf(sub.result), ResultOf(sup.result))
  }

  // ---------------------------------------------------------------- the schemas TypeBox writes

  predicate Scalar(v: Json) {
    v.Null? || v.Bool? || v.Num? || v.Str?
  }

  predicate TypesAdmit(types: Option<seq<string>>, v: Json) {
    types.Some? ==> exists t :: t in types.value && IsType(t, v)
  }

  /**
   A union or a constant has no other keyword beside it (but a type that admits the constant), a constant is a
   scalar, a tuple is closed, and an object has properties or patterns.
   */
  predicate PlainHere(s: Schema) {
    && (s.anyOf.Branches? ==> Bare(s) == ANY.(anyOf := s.anyOf))
    && (s.constant.Some? ==>
          Bare(s) == ANY.(constant := s.constant, types := s.types)
          && Scalar(s.constant.value) && TypesAdmit(s.types, s.constant.value))
    && (s.values.Some? ==>
          Bare(s) == ANY.(values := s.values, types := s.types)
          && forall v :: v in s.values.value ==> Scalar(v) && TypesAdmit(s.types, v))
    && (s.items.Tuple? ==> s.moreItems == Some(false))
    && (Listed(s.properties) == [] || Listed(s.patterns) == [])
  }

  predicate Plain(s: Schema)
    decreases s
  {
    && PlainHere(s)
    && (s.anyOf.Branches? ==> forall i :: 0 <= i < |s.anyOf.list| ==> Plain(s.anyOf.list[i]))
    && (forall i :: 0 <= i < |Listed(s.properties)| ==> Plain(Listed(s.properties)[i].schema))
    && (forall i :: 0 <= i < |Listed(s.patterns)| ==> Plain(Listed(s.patterns)[i].schema))
    && (s.additional.Extra? ==> Plain(s.additional.schema))
    && (s.items.Each? ==> Plain(s.items.schema))
    && (s.items.Tuple? ==> forall i :: 0 <= i < |s.items.list| ==> Plain(s.items.list[i]))
    && (s.parameters.Parameters? ==> forall i :: 0 <= i < |s.parameters.list| ==> Plain(s.parameters.list[i]))
    && (s.result.Result? ==> Plain(s.result.schema))
  }

  /** Objects of `s` may carry names that `s` says nothing about. */
  predicate Open(s: Schema) {
    && "object" in Given(s.types) && s.constant.None? && s.values.None?
    && !s.additional.Extra? && s.additional != Flag(false)
  }

  /** What comes under names that `s` does not know, if such may come: an open schema says nothing, so anything. */
  function Rest(s: Schema): Schema {
    if s.additional.Extra? then s.additional.schema else ANY
  }

  /**
   Three things `ObjectFits` does not look at.  A pattern of `sub` that matches a property only `sup` lists must fit
   it; a closed `sup` without patterns must list every name that a pattern matches; and where values are not
   stripped, a property that only `sup` lists must take anything if `sub` is open.
   */
  ghost predicate NoClash(w: World, tidy: bool, sub: Schema, sup: Schema)
    decreases Weight(sub) + Weight(sup), 1
  {
    Lighter(sup);
    var subP, supP, subR := Listed(sub.properties), Listed(sup.properties), Listed(sub.patterns);
    && (forall j, k :: 0 <= j < |supP| && 0 <= k < |subR| ==>
          Has(subP, supP[j].name) || !w.matches(subR[k].name, supP[j].name) || Fits(w, subR[k].schema, supP[j].schema))
    && (sup.additional == Flag(false) && Listed(sup.patterns) == [] ==>
          forall k, n :: 0 <= k < |subR| && w.matches(subR[k].name, n) ==> Has(supP, n))
    && (!tidy && Open(sub) ==> forall j :: 0 <= j < |supP| ==> Named(w, sub, supP[j].name) || Fits(w, ANY, supP[j].schema))
  }

  /** No two object schemas that `Fits` compares clash. */
  ghost predicate Clear(w: World, tidy: bool, subSchema: Schema, supSchema: Schema)
    decreases Weight(subSchema) + Weight(supSchema), 4
  {
    BareLighter(subSchema);
    BareLighter(supSchema);
    var sub, sup := Bare(subSchema), Bare(supSchema);
    sup == ANY || Same(sub, sup) ||
    if sub.anyOf.Branches? then forall i :: 0 <= i < |sub.anyOf.list| ==> Clear(w, tidy, sub.anyOf.list[i], sup)
    else if sup.anyOf.Branches? then
      (exists i :: 0 <= i < |sup.anyOf.list| && Fits(w, sub, sup.anyOf.list[i])) ==>
        exists i :: 0 <= i < |sup.anyOf.list| && Fits(w, sub, sup.anyOf.list[i]) && Clear(w, tidy, sub, sup.anyOf.list[i])
    else
      NoClash(w, tidy, sub, sup) && ClearFields(w, tidy, sub, sup)
      && (sub != ANY ==> ClearItems(w, tidy, sub, sup) && ClearFunctions(w, sub, sup))
  }

  ghost predicate ClearFields(w: World, tidy: bool, sub: Schema, sup: Schema)
    decreases Weight(sub) + Weight(sup), 1
  {
    Lighter(sub);
    Lighter(sup);
    var subP, supP := Listed(sub.properties), Listed(sup.properties);
    var subR, supR := Listed(sub.patterns), Listed(sup.patterns);
    && (forall i, j :: 0 <= i < |subP| && 0 <= j < |supP| ==>
          (subP[i].name == supP[j].name ==> Clear(w, tidy, subP[i].schema, supP[j].schema)))
    && (forall i, j :: 0 <= i < |subP| && 0 <= j < |supR| ==>
          (w.matches(supR[j].name, subP[i].name) ==> Clear(w, tidy, subP[i].schema, supR[j].schema)))
    && (forall i, j :: 0 <= i < |subR| && 0 <= j < |supR| ==>
          (subR[i].name == supR[j].name ==> Clear(w, tidy, subR[i].schema, supR[j].schema)))
    && (forall i, j :: 0 <= i < |subR| && 0 <= j < |supP| ==>
          (w.matches(subR[i].name, supP[j].name) && !Has(subP, supP[j].name) ==> Clear(w, tidy, subR[i].schema, supP[j].schema)))
    && (sub.additional.Extra? || (!tidy && Open(sub)) ==> ClearRest(w, tidy, sub, sup))
  }

  ghost predicate ClearRest(w: World, tidy: bool, sub: Schema, sup: Schema)
    decreases Weight(sub) + Weight(sup), 0
  {
    Lighter(sub);
    Lighter(sup);
    var supP := Listed(sup.properties);
    forall j :: 0 <= j < |supP| && !Named(w, sub, supP[j].name) ==> Clear(w, tidy, Rest(sub), supP[j].schema)
  }

  ghost predicate ClearItems(w: World, tidy: bool, sub: Schema, sup: Schema)
    requires sub != ANY && sup != ANY
    decreases Weight(sub) + Weight(sup), 1
  {
    Lighter(sub);
    Lighter(sup);
    if sup.items.Tuple? then
      sub.items.Tuple? && |sub.items.list| == |sup.items.list| ==>
        forall i :: 0 <= i < |sub.items.list| ==> Clear(w, tidy, sub.items.list[i], sup.items.list[i])
    else if sub.items.Tuple? then forall i :: 0 <= i < |sub.items.list| ==> Clear(w, tidy, sub.items.list[i], ItemOf(sup.items))
    else Clear(w, tidy, ItemOf(sub.items), ItemOf(sup.items))
  }

  /** What goes into a function and what comes out of it is not stripped. */
  ghost predicate ClearFunctions(w: World, sub: Schema, sup: Schema)
    requires sub != ANY && sup != ANY
    decreases Weight(sub) + Weight(sup), 1
  {
    Lighter(sub);
    Lighter(sup);
    var subP, supP := ParametersOf(sub.parameters), ParametersOf(sup.parameters);
    && (forall i :: 0 <= i < |subP| && i < |supP| ==> Clear(w, false, supP[i], subP[i]))
    && Clear(w, false, ResultOf(sub.result), ResultOf(sup.result))
  }

  // ---------------------------------------------------------------- soundness

  lemma BareConforms(w: World, tidy: bool, s: Schema, v: Json)
    ensures Conforms(w, tidy, Bare(s), v) == Conforms(w, tidy, s, v)
  {
    var b := Bare(s);
    assert Keywords(w, b, v) == Keywords(w, s, v);
    hide Keywords;
    match v
    case Obj(members) => assert ObjectConforms(w, tidy, b, members) == ObjectConforms(w, tidy, s, members);
    case Arr(elements) => assert ArrayConforms(w, tidy, b, elements) == ArrayConforms(w, tidy, s, elements);
    case Fn(id) =>
      assert forall args :: Accepted(w, b, args) == Accepted(w, s, args);
      assert FunctionConforms(w, b, id) == FunctionConforms(w, s, id);
    case _ =>
  }

  /** Anything goes under the empty schema. */
  lemma AnyConforms(w: World, tidy: bool, v: Json)
    ensures Conforms(w, tidy, ANY, v) && Plain(ANY)
  {
  }

  /** What one side may send, stripped (`tidy`) or as it is, the other side accepts. */
  lemma {:induction false} FitsSound(w: World, tidy: bool, subSchema: Schema, supSchema: Schema, v: Json)
    requires Fits(w, subSchema, supSchema) && Conforms(w, tidy, subSchema, v)
    requires Plain(subSchema) && Plain(supSchema) && Clear(w, tidy, subSchema, supSchema)
    ensures Conforms(w, false, supSchema, v)
    decreases Weight(subSchema) + Weight(supSchema), 4
  {
    var sub, sup := Bare(subSchema), Bare(supSchema);
    BareLighter(subSchema);
    BareLighter(supSchema);
    BareConforms(w, tidy, subSchema, v);
    BareConforms(w, false, supSchema, v);
    BarePlain(subSchema);
    BarePlain(supSchema);
    hide Conforms, Weight, Plain, Structural, Typed, Same, Clear;
    if sup == ANY {
      AnyConforms(w, false, v);
    } else if Same(sub, sup) {
      if tidy { TidyConforms(w, sub, v); }
      SameConforms(w, false, sub, sup, v);
    } else {
      ClearBare(w, tidy, subSchema, supSchema);
      hide Fits;
      if sub.anyOf.Branches? || sup.anyOf.Branches? {
        UnionSound(w, tidy, sub, sup, v);
      } else if sup.constant.Some? || sup.values.Some? {
        ConstantSound(w, tidy, sub, sup, v);
      } else {
        StructuralTyped(w, sub, sup);
        TypedSound(w, tidy, sub, sup, v);
      }
    }
  }

  lemma StructuralTyped(w: World, sub: Schema, sup: Schema)
    requires Structural(w, sub, sup) && sub.anyOf.NoBranches? && sup.anyOf.NoBranches?
    requires sup.constant.None? && sup.values.None?
    ensures Typed(w, sub, sup)
  {
    hide Typed;
  }

  lemma ClearBare(w: World, tidy: bool, subSchema: Schema, supSchema: Schema)
    requires Clear(w, tidy, subSchema, supSchema)
    ensures Clear(w, tidy, Bare(subSchema), Bare(supSchema))
  {
    assert Bare(Bare(subSchema)) == Bare(subSchema) && Bare(Bare(supSchema)) == Bare(supSchema);
    hide NoClash, ClearFields, ClearItems, ClearFunctions, Same, Weight, Fits, Bare;
  }

  lemma BarePlain(s: Schema)
    requires Plain(s)
    ensures Plain(Bare(s)) && PlainHere(Bare(s))
  {
  }

  lemma UnionSound(w: World, tidy: bool, sub: Schema, sup: Schema, v: Json)
    requires Structural(w, sub, sup) && Conforms(w, tidy, sub, v) && (sub.anyOf.Branches? || sup.anyOf.Branches?)
    requires Plain(sub) && Plain(sup) && Clear(w, tidy, sub, sup) && Bare(sub) == sub && Bare(sup) == sup
    requires sup != ANY && !Same(sub, sup)
    ensures Conforms(w, false, sup, v)
    decreases Weight(sub) + Weight(sup), 3
  {
    hide Same, Keywords, ObjectConforms, ArrayConforms, FunctionConforms;
    Lighter(sub);
    Lighter(sup);
    if sub.anyOf.Branches? {
      var i :| 0 <= i < |sub.anyOf.list| && Conforms(w, tidy, sub.anyOf.list[i], v);
      FitsSound(w, tidy, sub.anyOf.list[i], sup, v);
    } else {
      var i :| 0 <= i < |sup.anyOf.list| && Fits(w, sub, sup.anyOf.list[i]) && Clear(w, tidy, sub, sup.anyOf.list[i]);
      FitsSound(w, tidy, sub, sup.anyOf.list[i], v);
      AnyOfConforms(w, sup, i, v);
    }
  }

  lemma AnyOfConforms(w: World, sup: Schema, i: nat, v: Json)
    requires sup.anyOf.Branches? && i < |sup.anyOf.list| && Conforms(w, false, sup.anyOf.list[i], v)
    requires PlainHere(sup) && Bare(sup) == sup
    ensures Conforms(w, false, sup, v)
  {
  }

  lemma ConstantSound(w: World, tidy: bool, sub: Schema, sup: Schema, v: Json)
    requires Structural(w, sub, sup) && sub.anyOf.NoBranches? && sup.anyOf.NoBranches?
    requires sup.constant.Some? || sup.values.Some?
    requires Conforms(w, tidy, sub, v) && PlainHere(sup) && Bare(sup) == sup
    ensures Conforms(w, false, sup, v)
  {
  }

  lemma TypedSound(w: World, tidy: bool, sub: Schema, sup: Schema, v: Json)
    requires Typed(w, sub, sup) && sup.other == map[] && !sup.additional.Extra?
    requires sub.anyOf.NoBranches? && sup.anyOf.NoBranches? && sup.constant.None? && sup.values.None?
    requires Plain(sub) && Plain(sup) && sub == Bare(sub) && sup == Bare(sup) && Clear(w, tidy, sub, sup) && !Same(sub, sup)
    requires Conforms(w, tidy, sub, v)
    ensures Conforms(w, false, sup, v)
    decreases Weight(sub) + Weight(sup), 3
  {
    hide ClearFields, NoClash, ClearItems, ClearFunctions, ObjectConforms, ArrayConforms, FunctionConforms;
    var t :| t in sub.types.value && IsType(t, v);
    match v
    case Obj(members) => if sub.constant.None? && sub.values.None? { ObjectSound(w, tidy, sub, sup, members); }
    case Arr(elements) => if sub.constant.None? && sub.values.None? { ArraySound(w, tidy, sub, sup, elements); }
    case Fn(id) => if sub.constant.None? && sub.values.None? { FunctionSound(w, sub, sup, id); }
    case _ =>
  }

  lemma ObjectSound(w: World, tidy: bool, sub: Schema, sup: Schema, members: map<string, Json>)
    requires ObjectFits(w, sub, sup) && !sup.additional.Extra? && "object" in Given(sub.types)
    requires sub.constant.None? && sub.values.None?
    requires Plain(sub) && Plain(sup) && NoClash(w, tidy, sub, sup) && ClearFields(w, tidy, sub, sup)
    requires ObjectConforms(w, tidy, sub, members)
    ensures ObjectConforms(w, false, sup, members)
    decreases Weight(sub) + Weight(sup), 2
  {
    var supP, supR := Listed(sup.properties), Listed(sup.patterns);
    forall j | 0 <= j < |supP| && supP[j].name in members
      ensures Conforms(w, false, supP[j].schema, members[supP[j].name])
    {
      PropertySound(w, tidy, sub, sup, members, j);
    }
    forall j, n | 0 <= j < |supR| && n in members && w.matches(supR[j].name, n)
      ensures Conforms(w, false, supR[j].schema, members[n])
    {
      PatternSound(w, tidy, sub, sup, members, j, n);
    }
    forall n | n in members && !Named(w, sup, n) ensures sup.additional != Flag(false) {
      if sup.additional == Flag(false) { ClosedSound(w, tidy, sub, sup, n); }
    }
  }

  /** What brings a name that `sup` lists: the same name in `sub`, a pattern that matches it, or what else may be there. */
  lemma Brought(w: World, tidy: bool, sub: Schema, sup: Schema, members: map<string, Json>, j: nat) returns (t: Schema)
    requires ObjectFits(w, sub, sup) && "object" in Given(sub.types) && sub.constant.None? && sub.values.None?
    requires Plain(sub) && NoClash(w, tidy, sub, sup) && ClearFields(w, tidy, sub, sup)
    requires ObjectConforms(w, tidy, sub, members)
    requires j < |Listed(sup.properties)| && Listed(sup.properties)[j].name in members
    ensures var p := Listed(sup.properties)[j];
            Conforms(w, tidy, t, members[p.name]) && Fits(w, t, p.schema) && Clear(w, tidy, t, p.schema)
    ensures Plain(t) && Weight(t) <= Weight(sub)
  {
    hide Fits, Clear, Conforms;
    Lighter(sub);
    assert Weight(ANY) == 1 <= Weight(sub);
    hide Weight;
    var subP, subR, p := Listed(sub.properties), Listed(sub.patterns), Listed(sup.properties)[j];
    if Has(subP, p.name) {
      var i :| 0 <= i < |subP| && subP[i].name == p.name && subP[i].schema == At(subP, p.name);
      t := subP[i].schema;
    } else if k :| 0 <= k < |subR| && w.matches(subR[k].name, p.name) {
      t := subR[k].schema;
    } else {
      assert !Named(w, sub, p.name);
      t := Rest(sub);
      AnyConforms(w, tidy, members[p.name]);
    }
  }

  lemma PropertySound(w: World, tidy: bool, sub: Schema, sup: Schema, members: map<string, Json>, j: nat)
    requires ObjectFits(w, sub, sup) && "object" in Given(sub.types) && sub.constant.None? && sub.values.None?
    requires Plain(sub) && Plain(sup) && NoClash(w, tidy, sub, sup) && ClearFields(w, tidy, sub, sup)
    requires ObjectConforms(w, tidy, sub, members)
    requires j < |Listed(sup.properties)| && Listed(sup.properties)[j].name in members
    ensures Conforms(w, false, Listed(sup.properties)[j].schema, members[Listed(sup.properties)[j].name])
    decreases Weight(sub) + Weight(sup), 1
  {
    hide Fits, Clear, Conforms, ObjectFits, NoClash, ClearFields, ObjectConforms;
    Lighter(sup);
    var p := Listed(sup.properties)[j];
    var t := Brought(w, tidy, sub, sup, members, j);
    hide Weight;
    FitsSound(w, tidy, t, p.schema, members[p.name]);
  }

  /** A name that a pattern of `sup` matches: one of `sub`'s properties, or matched by the same pattern there. */
  lemma PatternSound(w: World, tidy: bool, sub: Schema, sup: Schema, members: map<string, Json>, j: nat, n: string)
    requires PatternsFit(w, sub, sup) && "object" in Given(sub.types)
    requires Plain(sub) && Plain(sup) && ClearFields(w, tidy, sub, sup)
    requires ObjectConforms(w, tidy, sub, members)
    requires j < |Listed(sup.patterns)| && n in members && w.matches(Listed(sup.patterns)[j].name, n)
    ensures Conforms(w, false, Listed(sup.patterns)[j].schema, members[n])
    decreases Weight(sub) + Weight(sup), 1
  {
    hide Fits, Clear, Conforms;
    Lighter(sub);
    Lighter(sup);
    assert Weight(ANY) == 1 && (sub != ANY ==> Weight(sub) >= 2) && (sup != ANY ==> Weight(sup) >= 2);
    hide Weight;
    var subP, subR, p := Listed(sub.properties), Listed(sub.patterns), Listed(sup.patterns)[j];
    assert Listed(sup.properties) == [];
    if sub.additional == Flag(false) { NamedWhenClosed(w, tidy, sub, members, n); }
    if Has(subP, n) {
      var i :| 0 <= i < |subP| && subP[i].name == n;
      FitsSound(w, tidy, subP[i].schema, p.schema, members[n]);
    } else if subR != [] {
      var i :| 0 <= i < |subR| && subR[i].name == p.name && subR[i].schema == At(subR, p.name);
      FitsSound(w, tidy, subR[i].schema, p.schema, members[n]);
    }
  }

  lemma NamedWhenClosed(w: World, tidy: bool, s: Schema, members: map<string, Json>, n: string)
    requires ObjectConforms(w, tidy, s, members) && s.additional == Flag(false) && n in members
    ensures Named(w, s, n)
  {
  }

  /** A closed `sup` knows every name a closed `sub` knows. */
  lemma ClosedSound(w: World, tidy: bool, sub: Schema, sup: Schema, n: string)
    requires ObjectFits(w, sub, sup) && NoClash(w, tidy, sub, sup) && sup.additional == Flag(false)
    requires Named(w, sub, n)
    ensures Named(w, sup, n)
  {
    var subP, subR, supR := Listed(sub.properties), Listed(sub.patterns), Listed(sup.patterns);
    if Has(subP, n) {
      var i :| 0 <= i < |subP| && subP[i].name == n;
    } else {
      var i :| 0 <= i < |subR| && w.matches(subR[i].name, n);
      if supR != [] {
        var j :| 0 <= j < |supR| && supR[j].name == subR[i].name;
      }
    }
  }

  lemma ArraySound(w: World, tidy: bool, sub: Schema, sup: Schema, elements: seq<Json>)
    requires sub != ANY && sup != ANY && ArrayFits(w, sub, sup) && ClearItems(w, tidy, sub, sup)
    requires Plain(sub) && Plain(sup) && ArrayConforms(w, tidy, sub, elements)
    ensures ArrayConforms(w, false, sup, elements)
    decreases Weight(sub) + Weight(sup), 2
  {
    Lighter(sub);
    Lighter(sup);
    assert Weight(ANY) == 1 && (sub != ANY ==> Weight(sub) >= 2) && (sup != ANY ==> Weight(sup) >= 2);
    hide Weight;
    forall i | 0 <= i < |elements| && sup.items.Tuple? && i < |sup.items.list|
      ensures Conforms(w, false, sup.items.list[i], elements[i])
    {
      FitsSound(w, tidy, sub.items.list[i], sup.items.list[i], elements[i]);
    }
    forall i | 0 <= i < |elements| && sup.items.Each? ensures Conforms(w, false, sup.items.schema, elements[i]) {
      if sub.items.Tuple? {
        FitsSound(w, tidy, sub.items.list[i], sup.items.schema, elements[i]);
      } else {
        AnyConforms(w, tidy, elements[i]);
        FitsSound(w, tidy, ItemOf(sub.items), sup.items.schema, elements[i]);
      }
    }
  }

  lemma FunctionSound(w: World, sub: Schema, sup: Schema, id: nat)
    requires sub != ANY && sup != ANY && FunctionFits(w, sub, sup) && ClearFunctions(w, sub, sup)
    requires Plain(sub) && Plain(sup) && FunctionConforms(w, sub, id)
    ensures FunctionConforms(w, sup, id)
    decreases Weight(sub) + Weight(sup), 2
  {
    Lighter(sub);
    Lighter(sup);
    assert Weight(ANY) == 1 && (sub != ANY ==> Weight(sub) >= 2) && (sup != ANY ==> Weight(sup) >= 2);
    hide Weight;
    if sup.result.Result? {
      forall args | Accepted(w, sup, args) ensures Conforms(w, false, sup.result.schema, w.call(id, args)) {
        ArgumentsSound(w, sub, sup, args);
        AnyConforms(w, false, w.call(id, args));
        FitsSound(w, false, ResultOf(sub.result), sup.result.schema, w.call(id, args));
      }
    }
  }

  /** What callers pass under `sup` the function takes under `sub`. */
  lemma ArgumentsSound(w: World, sub: Schema, sup: Schema, args: seq<Json>)
    requires sub != ANY && sup != ANY && FunctionFits(w, sub, sup) && ClearFunctions(w, sub, sup)
    requires Plain(sub) && Plain(sup) && Accepted(w, sup, args)
    ensures Accepted(w, sub, args)
    decreases Weight(sub) + Weight(sup), 1
  {
    Lighter(sub);
    Lighter(sup);
    assert Weight(ANY) == 1 && (sub != ANY ==> Weight(sub) >= 2) && (sup != ANY ==> Weight(sup) >= 2);
    hide Weight;
    if sub.parameters.Parameters? {
      var subP, supP := sub.parameters.list, ParametersOf(sup.parameters);
      forall i | 0 <= i < |subP| ensures Conforms(w, false, subP[i], args[i]) {
        FitsSound(w, false, supP[i], subP[i], args[i]);
      }
    }
  }

  /**
   No names by pattern anywhere, and no open objects where what is sent is not stripped.  `sends`: values go out under
   `s`, and into the parameters of a function they go the other way.
   */
  predicate Shut(sends: bool, tidy: bool, s: Schema)
    decreases s
  {
    && Listed(s.patterns) == [] && (sends && !tidy ==> !Open(s))
    && (s.anyOf.Branches? ==> forall i :: 0 <= i < |s.anyOf.list| ==> Shut(sends, tidy, s.anyOf.list[i]))
    && (forall i :: 0 <= i < |Listed(s.properties)| ==> Shut(sends, tidy, Listed(s.properties)[i].schema))
    && (s.additional.Extra? ==> Shut(sends, tidy, s.additional.schema))
    && (s.items.Each? ==> Shut(sends, tidy, s.items.schema))
    && (s.items.Tuple? ==> forall i :: 0 <= i < |s.items.list| ==> Shut(sends, tidy, s.items.list[i]))
    && (s.parameters.Parameters? ==> forall i :: 0 <= i < |s.parameters.list| ==> Shut(!sends, false, s.parameters.list[i]))
    && (s.result.Result? ==> Shut(sends, false, s.result.schema))
  }

  /** Schemas without records never clash, nor do closed objects when nothing is stripped. */
  lemma {:induction false} ClearWhenShut(w: World, tidy: bool, subSchema: Schema, supSchema: Schema)
    requires Shut(true, tidy, subSchema) && Shut(false, tidy, supSchema)
    ensures Clear(w, tidy, subSchema, supSchema)
    decreases Weight(subSchema) + Weight(supSchema), 4
  {
    var sub, sup := Bare(subSchema), Bare(supSchema);
    BareLighter(subSchema);
    BareLighter(supSchema);
    hide Same, Fits, NoClash, ClearFields, ClearItems, ClearFunctions, Weight;
    if sub.anyOf.Branches? {
      forall i | 0 <= i < |sub.anyOf.list| ensures Clear(w, tidy, sub.anyOf.list[i], sup) {
        ClearWhenShut(w, tidy, sub.anyOf.list[i], sup);
      }
    } else if sup.anyOf.Branches? {
      forall i | 0 <= i < |sup.anyOf.list| ensures Clear(w, tidy, sub, sup.anyOf.list[i]) {
        ClearWhenShut(w, tidy, sub, sup.anyOf.list[i]);
      }
    } else if sup != ANY {
      NoClashWhenShut(w, tidy, sub, sup);
      ClearFieldsWhenShut(w, tidy, sub, sup);
      if sub != ANY {
        ClearItemsWhenShut(w, tidy, sub, sup);
        ClearFunctionsWhenShut(w, tidy, sub, sup);
      }
    }
  }

  lemma NoClashWhenShut(w: World, tidy: bool, sub: Schema, sup: Schema)
    requires Listed(sub.patterns) == [] && (tidy || !Open(sub))
    ensures NoClash(w, tidy, sub, sup)
  {
  }

  lemma ClearFieldsWhenShut(w: World, tidy: bool, sub: Schema, sup: Schema)
    requires Shut(true, tidy, sub) && Shut(false, tidy, sup)
    ensures ClearFields(w, tidy, sub, sup)
    decreases Weight(sub) + Weight(sup), 1
  {
    Lighter(sub);
    Lighter(sup);
    var subP, supP := Listed(sub.properties), Listed(sup.properties);
    hide Weight, Clear, ClearFields;
    forall i, j | 0 <= i < |subP| && 0 <= j < |supP| ensures Clear(w, tidy, subP[i].schema, supP[j].schema) {
      ClearWhenShut(w, tidy, subP[i].schema, supP[j].schema);
    }
    forall j | sub.additional.Extra? && 0 <= j < |supP| ensures Clear(w, tidy, sub.additional.schema, supP[j].schema) {
      ClearWhenShut(w, tidy, sub.additional.schema, supP[j].schema);
    }
    ClearByParts(w, tidy, sub, sup);
  }

  lemma ClearByParts(w: World, tidy: bool, sub: Schema, sup: Schema)
    requires Listed(sub.patterns) == [] && Listed(sup.patterns) == [] && (tidy || !Open(sub))
    requires forall i, j :: 0 <= i < |Listed(sub.properties)| && 0 <= j < |Listed(sup.properties)| ==>
               Clear(w, tidy, Listed(sub.properties)[i].schema, Listed(sup.properties)[j].schema)
    requires sub.additional.Extra? ==>
               forall j :: 0 <= j < |Listed(sup.properties)| ==> Clear(w, tidy, sub.additional.schema, Listed(sup.properties)[j].schema)
    ensures ClearFields(w, tidy, sub, sup)
  {
    hide Clear, Weight, Named, Has;
  }

  lemma ClearFunctionsWhenShut(w: World, tidy: bool, sub: Schema, sup: Schema)
    requires Shut(true, tidy, sub) && Shut(false, tidy, sup) && sub != ANY && sup != ANY
    ensures ClearFunctions(w, sub, sup)
    decreases Weight(sub) + Weight(sup), 1
  {
    Lighter(sub);
    Lighter(sup);
    assert Weight(ANY) == 1 && Weight(sub) >= 2 && Weight(sup) >= 2 && Shut(true, false, ANY) && Shut(false, false, ANY);
    hide Weight, Clear;
    var subP, supP := ParametersOf(sub.parameters), ParametersOf(sup.parameters);
    forall i | 0 <= i < |subP| && i < |supP| ensures Clear(w, false, supP[i], subP[i]) {
      ClearWhenShut(w, false, supP[i], subP[i]);
    }
    ClearWhenShut(w, false, ResultOf(sub.result), ResultOf(sup.result));
  }

  lemma ClearItemsWhenShut(w: World, tidy: bool, sub: Schema, sup: Schema)
    requires Shut(true, tidy, sub) && Shut(false, tidy, sup) && sub != ANY && sup != ANY
    ensures ClearItems(w, tidy, sub, sup)
    decreases Weight(sub) + Weight(sup), 1
  {
    Lighter(sub);
    Lighter(sup);
    assert Weight(ANY) == 1 && Weight(sub) >= 2 && Weight(sup) >= 2 && Shut(true, tidy, ANY) && Shut(false, tidy, ANY);
    hide Weight, Clear;
    if sub.items.Tuple? {
      forall i | 0 <= i < |sub.items.list| && (sup.items.Tuple? ==> |sub.items.list| == |sup.items.list|)
        ensures Clear(w, tidy, sub.items.list[i], if sup.items.Tuple? then sup.items.list[i] else ItemOf(sup.items))
      {
        ClearWhenShut(w, tidy, sub.items.list[i], if sup.items.Tuple? then sup.items.list[i] else ItemOf(sup.items));
      }
    } else if !sup.items.Tuple? {
      ClearWhenShut(w, tidy, ItemOf(sub.items), ItemOf(sup.items));
    }
  }

  // ---------------------------------------------------------------- where it is not sound

  function Text(): Schema { ANY.(types := Some(["string"])) }

  function Number(): Schema { ANY.(types := Some(["number"])) }

  /** An object whose names match `pattern`. */
  function Record(pattern: string, value: Schema): Schema {
    ANY.(types := Some(["object"]), patterns := Fields([Field(pattern, value)]))
  }

  /** An object with one optional property. */
  function Optional(name: string, value: Schema): Schema {
    ANY.(types := Some(["object"]), properties := Fields([Field(name, value)]))
  }

  /** A consumer's record fits a provider's object with an optional property of another type, and should not. */
  lemma RecordFitsUnchecked(w: World, pattern: string, name: string)
    requires w.matches(pattern, name)
    ensures var sub, sup := Record(pattern, Text()), Optional(name, Number());
            var v := Obj(map[name := Str("")]);
            && Plain(sub) && Plain(sup) && Fits(w, sub, sup)
            && Conforms(w, true, sub, v) && !Conforms(w, false, sup, v)
  {
    var sub, sup := Record(pattern, Text()), Optional(name, Number());
    RecordFits(w, sub, sup, pattern, name);
    hide Fits, Conforms;
    RecordAdmits(w, sub, pattern, name);
    OptionalRefuses(w, sup, name);
  }

  lemma RecordAdmits(w: World, sub: Schema, pattern: string, name: string)
    requires sub == Record(pattern, Text()) && w.matches(pattern, name)
    ensures Conforms(w, true, sub, Obj(map[name := Str("")]))
  {
    var members := map[name := Str("")];
    assert Listed(sub.patterns)[0].name == pattern && Named(w, sub, name);
    assert "string" in Text().types.value && IsType("string", members[name]) && IsType("object", Obj(members));
    assert "object" in sub.types.value;
    assert Conforms(w, true, Text(), members[name]);
    assert ObjectConforms(w, true, sub, members);
  }

  lemma OptionalRefuses(w: World, sup: Schema, name: string)
    requires sup == Optional(name, Number())
    ensures !Conforms(w, false, sup, Obj(map[name := Str("")]))
  {
    var members := map[name := Str("")];
    assert Listed(sup.properties)[0].name == name && IsType("string", members[name]);
    assert !Conforms(w, false, Listed(sup.properties)[0].schema, members[name]);
    assert !ObjectConforms(w, false, sup, members);
  }

  /** An object without named properties, open as TypeBox writes it. */
  function Blank(): Schema {
    ANY.(types := Some(["object"]), properties := Fields([]))
  }

  /**
   What is not stripped: an open object fits one that lists an optional property more, and values of the first may carry
   that name with a value of another type.
   */
  lemma ExtraFitsUnchecked(w: World, name: string)
    ensures var sub, sup := Blank(), Optional(name, Number());
            var v := Obj(map[name := Str("")]);
            && Plain(sub) && Plain(sup) && Fits(w, sub, sup) && Clear(w, true, sub, sup)
            && Conforms(w, false, sub, v) && !Conforms(w, false, sup, v)
  {
    var sub, sup := Blank(), Optional(name, Number());
    BlankFits(w, sub, sup, name);
    hide Fits, Conforms, Clear, Plain;
    BlankAdmits(w, name);
    OptionalRefuses(w, sup, name);
  }

  lemma BlankAdmits(w: World, name: string)
    ensures Conforms(w, false, Blank(), Obj(map[name := Str("")]))
  {
    assert "object" in Blank().types.value && IsType("object", Obj(map[name := Str("")]));
    assert ObjectConforms(w, false, Blank(), map[name := Str("")]);
  }

  lemma BlankFits(w: World, sub: Schema, sup: Schema, name: string)
    requires sub == Blank() && sup == Optional(name, Number())
    ensures Plain(sub) && Plain(sup) && Fits(w, sub, sup) && Clear(w, true, sub, sup)
  {
    ClearWhenShut(w, true, sub, sup);
    hide Clear;
    assert !Has(Listed(sub.properties), Listed(sup.properties)[0].name);
    assert ObjectFits(w, sub, sup);
    assert Typed(w, sub, sup);
  }

  lemma RecordFits(w: World, sub: Schema, sup: Schema, pattern: string, name: string)
    requires sub == Record(pattern, Text()) && sup == Optional(name, Number())
    ensures Fits(w, sub, sup)
  {
    assert !Has(Listed(sub.properties), Listed(sup.properties)[0].name);
    assert ObjectFits(w, sub, sup);
    assert Typed(w, sub, sup);
  }

  /** Whatever is sent under `sub`, stripped or as it is, conforms to `sup`. */
  ghost predicate Safe(w: World, tidy: bool, sub: Schema, sup: Schema) {
    forall v :: Conforms(w, tidy, sub, v) ==> Conforms(w, false, sup, v)
  }
}
