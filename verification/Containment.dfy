/**
 Exactly when everything sent under one schema, stripped to the names it knows or as it is, another admits, for scalars,
 literals, arrays, records and objects in any nesting and unions anywhere in the first, and what of it `fits` does not
 look at.
 */
module Containment {
  import opened Schemas
  import opened Wrappers

  // ---------------------------------------------------------------- the schemas this is about

  predicate IsAny(s: Schema) {
    Bare(s) == ANY
  }

  predicate IsScalarType(t: string) {
    t == "null" || t == "boolean" || t == "number" || t == "integer" || t == "string"
  }

  predicate IsScalar(s: Schema) {
    && Bare(s) == ANY.(types := s.types) && s.types.Some? && s.types.value != []
    && forall t :: t in s.types.value ==> IsScalarType(t)
  }

  function ValuesOf(s: Schema): seq<Json> {
    if s.constant.Some? then [s.constant.value] else if s.values.Some? then s.values.value else []
  }

  /** One scalar, or some, with types that admit them if there are types. */
  predicate IsLiteral(s: Schema) {
    && (Bare(s) == ANY.(types := s.types, constant := s.constant) || Bare(s) == ANY.(types := s.types, values := s.values))
    && ValuesOf(s) != [] && forall v :: v in ValuesOf(s) ==> Scalar(v) && TypesAdmit(s.types, v)
  }

  predicate IsUnion(s: Schema) {
    s.anyOf.Branches? && s.anyOf.list != [] && Bare(s) == ANY.(anyOf := s.anyOf)
  }

  predicate IsList(s: Schema) {
    s.items.Each? && Bare(s) == ANY.(types := Some(["array"]), items := s.items)
  }

  /** Names by one pattern. */
  predicate IsRecord(s: Schema) {
    && Bare(s) == ANY.(types := Some(["object"]), patterns := s.patterns, additional := s.additional)
    && !s.additional.Extra? && |Listed(s.patterns)| == 1
  }

  /** Properties, some of them required. */
  predicate IsObject(s: Schema) {
    && Bare(s) == ANY.(types := Some(["object"]), properties := s.properties, required := s.required, additional := s.additional)
    && !s.additional.Extra?
    && (forall i, j :: 0 <= i < j < |Listed(s.properties)| ==> Listed(s.properties)[i].name != Listed(s.properties)[j].name)
    && (forall n :: n in Given(s.required) ==> Has(Listed(s.properties), n))
  }

  predicate HasNames(s: Schema) {
    IsRecord(s) || IsObject(s)
  }

  /** What values are sent under. */
  predicate Sent(s: Schema)
    decreases s
  {
    || IsAny(s) || IsScalar(s) || IsLiteral(s)
    || (IsUnion(s) && forall i :: 0 <= i < |s.anyOf.list| ==> Sent(s.anyOf.list[i]))
    || (IsList(s) && Sent(s.items.schema))
    || (IsRecord(s) && Sent(Listed(s.patterns)[0].schema))
    || (IsObject(s) && forall i :: 0 <= i < |Listed(s.properties)| ==> Sent(Listed(s.properties)[i].schema))
  }

  /** What they are expected under: the same without unions. */
  predicate Simple(s: Schema)
    decreases s
  {
    || IsAny(s) || IsScalar(s) || IsLiteral(s)
    || (IsList(s) && Simple(s.items.schema))
    || (IsRecord(s) && Simple(Listed(s.patterns)[0].schema))
    || (IsObject(s) && forall i :: 0 <= i < |Listed(s.properties)| ==> Simple(Listed(s.properties)[i].schema))
  }

  /** What goes under a name that `s` knows. */
  function Under(w: World, s: Schema, n: string): (r: Option<Schema>)
    requires HasNames(s)
    ensures r.Some? ==> r.value < s && (Simple(s) ==> Simple(r.value)) && (Sent(s) ==> Sent(r.value))
  {
    if IsRecord(s) then
      var p := Listed(s.patterns)[0];
      if w.matches(p.name, n) then Some(p.schema) else None
    else if Has(Listed(s.properties), n) then Some(At(Listed(s.properties), n))
    else None
  }

  // ---------------------------------------------------------------- containment, read off the schemas

  /**
   Types fit types; the items of arrays, and the schemas two objects have for the same name, are inside each other; a
   closed object knows every name.  Literals are admitted one by one, and a union branch by branch.  The only questions
   about names are those of the patterns, and of the names an open object may bring besides, if it is not stripped.
   */
  ghost predicate Within(w: World, tidy: bool, sub: Schema, sup: Schema)
    requires Sent(sub) && Simple(sup)
    decreases sub, 3
  {
    IsAny(sup) ||
    if IsUnion(sub) then forall i :: 0 <= i < |sub.anyOf.list| ==> Within(w, tidy, sub.anyOf.list[i], sup)
    else if IsLiteral(sub) then forall v :: v in ValuesOf(sub) ==> LeafAdmits(sup, v)
    else if IsLiteral(sup) then IsScalar(sub) && forall t :: t in sub.types.value ==> AllListed(t, ValuesOf(sup))
    else
      && sub.types.Some? && sup.types.Some? && TypesFit(sub.types.value, sup.types.value)
      && (IsList(sub) && IsList(sup) ==> Within(w, tidy, sub.items.schema, sup.items.schema))
      && (HasNames(sub) && HasNames(sup) ==> NamesWithin(w, tidy, sub, sup))
  }

  predicate LeafAdmits(s: Schema, v: Json) {
    if IsLiteral(s) then v in ValuesOf(s) else s.types.Some? && exists t :: t in s.types.value && IsType(t, v)
  }

  /** All values of a type are listed: only two types have few enough. */
  predicate AllListed(t: string, values: seq<Json>) {
    (t == "null" && Null in values) || (t == "boolean" && Bool(false) in values && Bool(true) in values)
  }

  ghost predicate NamesWithin(w: World, tidy: bool, sub: Schema, sup: Schema)
    requires Sent(sub) && Simple(sup) && HasNames(sub) && HasNames(sup)
    decreases sub, 2
  {
    && (forall n :: n in Given(sup.required) ==> n in Given(sub.required))
    && KnownWithin(w, tidy, sub, sup)
    && (Loose(tidy, sub) ==> OthersWithin(w, sub, sup))
  }

  /** Names that `s` does not know may come with what is sent under it. */
  predicate Loose(tidy: bool, s: Schema) {
    !tidy && s.additional != Flag(false)
  }

  /** The names that `sub` knows. */
  ghost predicate KnownWithin(w: World, tidy: bool, sub: Schema, sup: Schema)
    requires Sent(sub) && Simple(sup) && HasNames(sub) && HasNames(sup)
    decreases sub, 1
  {
    var subP, supP := Listed(sub.properties), Listed(sup.properties);
    if !IsRecord(sub) then
      forall i :: 0 <= i < |subP| ==>
        var other := Under(w, sup, subP[i].name);
        if other.Some? then Within(w, tidy, subP[i].schema, other.value) else sup.additional != Flag(false)
    else if !IsRecord(sup) then
      MatchedWithin(w, tidy, sub, sup) && NamesKnown(w, sub, sup)
    else
      var p, q := Listed(sub.patterns)[0], Listed(sup.patterns)[0];
      && ((exists n :: w.matches(p.name, n) && w.matches(q.name, n)) ==> Within(w, tidy, p.schema, q.schema))
      && NamesKnown(w, sub, sup)
  }

  /** The names that `sub` does not know: `sup` takes anything under them, and knows them if it is closed. */
  ghost predicate OthersWithin(w: World, sub: Schema, sup: Schema)
    requires HasNames(sub) && HasNames(sup)
  {
    && (if IsRecord(sup) then
          (exists n :: Under(w, sub, n).None? && w.matches(Listed(sup.patterns)[0].name, n)) ==> IsAny(Listed(sup.patterns)[0].schema)
        else TakesOthers(w, sub, sup))
    && (sup.additional == Flag(false) ==> forall n :: Under(w, sub, n).None? ==> Under(w, sup, n).Some?)
  }

  /** Every property that only `sup` knows stands for anything. */
  predicate TakesOthers(w: World, sub: Schema, sup: Schema)
    requires HasNames(sub) && IsObject(sup)
  {
    forall j :: 0 <= j < |Listed(sup.properties)| && Under(w, sub, Listed(sup.properties)[j].name).None? ==>
      IsAny(Listed(sup.properties)[j].schema)
  }

  /** Each property that the record's pattern matches takes what the record brings under it. */
  ghost predicate MatchedWithin(w: World, tidy: bool, sub: Schema, sup: Schema)
    requires Sent(sub) && Simple(sup) && IsRecord(sub) && IsObject(sup)
    decreases sub, 0
  {
    var p, supP := Listed(sub.patterns)[0], Listed(sup.properties);
    forall j :: 0 <= j < |supP| && w.matches(p.name, supP[j].name) ==> Within(w, tidy, p.schema, supP[j].schema)
  }

  /** A closed `sup` knows every name the record's pattern matches. */
  ghost predicate NamesKnown(w: World, sub: Schema, sup: Schema)
    requires IsRecord(sub) && HasNames(sup)
  {
    sup.additional == Flag(false) ==> forall n :: w.matches(Listed(sub.patterns)[0].name, n) ==> Under(w, sup, n).Some?
  }

  /** Both ways of asking: by the lists, and name by name. */
  lemma ByName(w: World, tidy: bool, sub: Schema, sup: Schema)
    requires Sent(sub) && Simple(sup) && HasNames(sub) && HasNames(sup)
    ensures KnownWithin(w, tidy, sub, sup) <==> forall n :: Under(w, sub, n).Some? ==> NameWithin(w, tidy, sub, sup, n)
  {
    hide Within, Simple, Sent;
    if IsRecord(sub) {
      var p := Listed(sub.patterns)[0];
      if IsRecord(sup) {
        var q := Listed(sup.patterns)[0];
        assert forall n :: Under(w, sub, n).Some? <==> w.matches(p.name, n);
        assert forall n :: Under(w, sup, n).Some? <==> w.matches(q.name, n);
      } else {
        RecordByName(w, tidy, sub, sup);
      }
    } else {
      ObjectByName(w, tidy, sub, sup);
    }
  }

  ghost predicate OtherWithin(w: World, sup: Schema, n: string)
    requires HasNames(sup)
  {
    if Under(w, sup, n).Some? then IsAny(Under(w, sup, n).value) else sup.additional != Flag(false)
  }

  lemma OthersByName(w: World, sub: Schema, sup: Schema)
    requires HasNames(sub) && HasNames(sup)
    ensures OthersWithin(w, sub, sup) <==> forall n :: Under(w, sub, n).None? ==> OtherWithin(w, sup, n)
  {
    var supP := Listed(sup.properties);
    if IsRecord(sup) {
      var q := Listed(sup.patterns)[0];
      assert forall n :: Under(w, sup, n).Some? <==> w.matches(q.name, n);
      hide IsAny, IsRecord, IsObject;
    } else {
      forall j | 0 <= j < |supP| ensures Under(w, sup, supP[j].name) == Some(supP[j].schema) { AtIndex(supP, j); }
      forall n | Under(w, sup, n).Some?
        ensures exists j :: 0 <= j < |supP| && supP[j].name == n && supP[j].schema == Under(w, sup, n).value
      {
      }
      hide IsAny, Under, IsRecord, IsObject;
    }
  }

  ghost predicate NameWithin(w: World, tidy: bool, sub: Schema, sup: Schema, n: string)
    requires Sent(sub) && Simple(sup) && HasNames(sub) && HasNames(sup) && Under(w, sub, n).Some?
    decreases sub, 0
  {
    if Under(w, sup, n).Some? then Within(w, tidy, Under(w, sub, n).value, Under(w, sup, n).value)
    else sup.additional != Flag(false)
  }

  lemma {:induction false} AtIndex(f: seq<Field>, i: nat)
    requires i < |f| && forall a, b :: 0 <= a < b < |f| ==> f[a].name != f[b].name
    ensures Has(f, f[i].name) && At(f, f[i].name) == f[i].schema
    decreases |f|
  {
    if i > 0 {
      assert f[0].name != f[i].name;
      assert forall a :: 0 <= a < |f[1..]| ==> f[1..][a] == f[a + 1];
      AtIndex(f[1..], i - 1);
    }
  }

  lemma RecordByName(w: World, tidy: bool, sub: Schema, sup: Schema)
    requires Sent(sub) && Simple(sup) && IsRecord(sub) && IsObject(sup)
    ensures MatchedWithin(w, tidy, sub, sup) && NamesKnown(w, sub, sup) <==>
            forall n :: Under(w, sub, n).Some? ==> NameWithin(w, tidy, sub, sup, n)
  {
    hide Within, Simple, Sent;
    var p, supP := Listed(sub.patterns)[0], Listed(sup.properties);
    assert !IsRecord(sup);
    assert forall n :: Under(w, sub, n).Some? <==> w.matches(p.name, n);
    if forall n :: Under(w, sub, n).Some? ==> NameWithin(w, tidy, sub, sup, n) {
      forall j | 0 <= j < |supP| && w.matches(p.name, supP[j].name) ensures Within(w, tidy, p.schema, supP[j].schema) {
        AtIndex(supP, j);
        assert NameWithin(w, tidy, sub, sup, supP[j].name);
      }
    }
  }

  lemma ObjectByName(w: World, tidy: bool, sub: Schema, sup: Schema)
    requires Sent(sub) && Simple(sup) && IsObject(sub) && !IsRecord(sub) && HasNames(sup)
    ensures KnownWithin(w, tidy, sub, sup) <==> forall n :: Under(w, sub, n).Some? ==> NameWithin(w, tidy, sub, sup, n)
  {
    hide Within, Simple, Sent;
    var subP := Listed(sub.properties);
    forall i | 0 <= i < |subP| ensures Under(w, sub, subP[i].name) == Some(subP[i].schema) { AtIndex(subP, i); }
  }

  // ---------------------------------------------------------------- values of these schemas

  lemma ScalarValues(w: World, tidy: bool, s: Schema, v: Json)
    requires IsScalar(s)
    ensures Conforms(w, tidy, s, v) <==> exists t :: t in s.types.value && IsType(t, v)
  {
    BareConforms(w, tidy, s, v);
  }

  lemma LiteralValues(w: World, tidy: bool, s: Schema, v: Json)
    requires IsLiteral(s)
    ensures Conforms(w, tidy, s, v) <==> v in ValuesOf(s)
  {
    if v in ValuesOf(s) { assert Scalar(v) && TypesAdmit(s.types, v); }
  }

  lemma UnionValues(w: World, tidy: bool, s: Schema, v: Json)
    requires IsUnion(s)
    ensures Conforms(w, tidy, s, v) <==> exists i :: 0 <= i < |s.anyOf.list| && Conforms(w, tidy, s.anyOf.list[i], v)
  {
    assert Keywords(w, s, v);
  }

  lemma OneType(w: World, tidy: bool, s: Schema, v: Json, t: string)
    requires s.types == Some([t]) && s.constant.None? && s.values.None? && s.anyOf.NoBranches?
    requires s.constraints == map[] && s.other == map[]
    ensures Conforms(w, tidy, s, v) <==>
            && IsType(t, v)
            && (v.Obj? ==> ObjectConforms(w, tidy, s, v.members))
            && (v.Arr? ==> ArrayConforms(w, tidy, s, v.elements))
            && (v.Fn? ==> FunctionConforms(w, s, v.id))
  {
    assert [t][0] == t;
    assert forall u :: u in s.types.value <==> u == t;
  }

  lemma ListValues(w: World, tidy: bool, s: Schema, v: Json)
    requires IsList(s)
    ensures Conforms(w, tidy, s, v) <==>
            v.Arr? && forall i :: 0 <= i < |v.elements| ==> Conforms(w, tidy, s.items.schema, v.elements[i])
  {
    OneType(w, tidy, s, v, "array");
  }

  lemma NamedValues(w: World, tidy: bool, s: Schema, v: Json)
    requires HasNames(s)
    ensures Conforms(w, tidy, s, v) <==> v.Obj? && ObjectConforms(w, tidy, s, v.members)
  {
    OneType(w, tidy, s, v, "object");
  }

  /** What an object of `s` holds under a name. */
  ghost predicate HoldsUnder(w: World, tidy: bool, s: Schema, n: string, x: Json)
    requires HasNames(s)
  {
    if Under(w, s, n).Some? then Conforms(w, tidy, Under(w, s, n).value, x) else !tidy && s.additional != Flag(false)
  }

  lemma MembersConform(w: World, tidy: bool, s: Schema, members: map<string, Json>)
    requires HasNames(s)
    ensures ObjectConforms(w, tidy, s, members) <==>
            && (forall n :: n in Given(s.required) ==> n in members)
            && forall n :: n in members ==> HoldsUnder(w, tidy, s, n, members[n])
  {
    if IsRecord(s) {
      RecordHolds(w, tidy, s);
      hide *;
      RecordMembers(w, tidy, s, Listed(s.patterns)[0], members);
    } else {
      ObjectHolds(w, tidy, s);
      hide *;
      ObjectMembers(w, tidy, s, Listed(s.properties), members);
    }
  }

  lemma RecordHolds(w: World, tidy: bool, s: Schema)
    requires IsRecord(s)
    ensures Listed(s.patterns) == [Listed(s.patterns)[0]] && Listed(s.properties) == [] && s.required.None?
    ensures !s.additional.Extra? && "object" in Given(s.types) && Given(s.required) == []
    ensures forall n, x :: HoldsUnder(w, tidy, s, n, x) <==>
              var p := Listed(s.patterns)[0];
              if w.matches(p.name, n) then Conforms(w, tidy, p.schema, x) else !tidy && s.additional != Flag(false)
  {
    assert ["object"][0] == "object";
    hide Conforms;
  }

  lemma ObjectHolds(w: World, tidy: bool, s: Schema)
    requires IsObject(s) && !IsRecord(s)
    ensures Listed(s.patterns) == [] && !s.additional.Extra? && "object" in Given(s.types)
    ensures var p := Listed(s.properties); forall i, j :: 0 <= i < j < |p| ==> p[i].name != p[j].name
    ensures forall n, x :: HoldsUnder(w, tidy, s, n, x) <==>
              var p := Listed(s.properties);
              if Has(p, n) then Conforms(w, tidy, At(p, n), x) else !tidy && s.additional != Flag(false)
  {
    assert ["object"][0] == "object";
    hide Conforms, At, Has;
  }

  lemma RecordMembers(w: World, tidy: bool, s: Schema, p: Field, members: map<string, Json>)
    requires Listed(s.patterns) == [p] && Listed(s.properties) == [] && s.required.None? && !s.additional.Extra?
    requires "object" in Given(s.types)
    ensures ObjectConforms(w, tidy, s, members) <==>
            forall n :: n in members ==>
              if w.matches(p.name, n) then Conforms(w, tidy, p.schema, members[n]) else !tidy && s.additional != Flag(false)
  {
    hide Conforms;
    forall n ensures Named(w, s, n) <==> w.matches(p.name, n) { assert [p][0] == p; }
    hide Named;
    if ObjectConforms(w, tidy, s, members) {
      forall n | n in members && w.matches(p.name, n) ensures Conforms(w, tidy, p.schema, members[n]) {
        assert w.matches(Listed(s.patterns)[0].name, n);
      }
    }
  }

  lemma PropertiesByName(w: World, tidy: bool, p: seq<Field>, members: map<string, Json>)
    requires forall i, j :: 0 <= i < j < |p| ==> p[i].name != p[j].name
    ensures (forall i :: 0 <= i < |p| && p[i].name in members ==> Conforms(w, tidy, p[i].schema, members[p[i].name])) <==>
            (forall n :: n in members && Has(p, n) ==> Conforms(w, tidy, At(p, n), members[n]))
  {
    forall i | 0 <= i < |p| ensures Has(p, p[i].name) && At(p, p[i].name) == p[i].schema { AtIndex(p, i); }
    forall n | Has(p, n) ensures exists i :: 0 <= i < |p| && p[i].name == n && p[i].schema == At(p, n) {}
    hide Conforms, At, Has;
  }

  lemma ObjectMembers(w: World, tidy: bool, s: Schema, p: seq<Field>, members: map<string, Json>)
    requires Listed(s.patterns) == [] && Listed(s.properties) == p && !s.additional.Extra? && "object" in Given(s.types)
    requires forall i, j :: 0 <= i < j < |p| ==> p[i].name != p[j].name
    ensures ObjectConforms(w, tidy, s, members) <==>
            && (forall n :: n in Given(s.required) ==> n in members)
            && forall n :: n in members ==>
                 if Has(p, n) then Conforms(w, tidy, At(p, n), members[n]) else !tidy && s.additional != Flag(false)
  {
    NamedInObject(w, tidy, s, members);
    PropertiesByName(w, tidy, p, members);
    hide Conforms, ObjectConforms, At, Has;
  }

  /** Without patterns: its properties, and what else may be there. */
  lemma NamedInObject(w: World, tidy: bool, s: Schema, members: map<string, Json>)
    requires Listed(s.patterns) == [] && !s.additional.Extra? && "object" in Given(s.types)
    ensures var p := Listed(s.properties);
            ObjectConforms(w, tidy, s, members) <==>
            && (forall n :: n in Given(s.required) ==> n in members)
            && (forall i :: 0 <= i < |p| && p[i].name in members ==> Conforms(w, tidy, p[i].schema, members[p[i].name]))
            && forall n :: n in members && !Has(p, n) ==> !tidy && s.additional != Flag(false)
  {
    forall n ensures Named(w, s, n) <==> Has(Listed(s.properties), n) {}
    hide Conforms, Named, Has;
  }

  // ---------------------------------------------------------------- a value of each

  function SampleOf(t: string): Json {
    if t == "null" then Null
    else if t == "boolean" then Bool(true)
    else if t == "number" then Num(0.5)
    else if t == "integer" then Num(0.0)
    else Str("")
  }

  lemma SampleTells(t: string)
    requires IsScalarType(t)
    ensures forall u :: IsType(u, SampleOf(t)) ==> u == t || (t == "integer" && u == "number")
    ensures IsType(t, SampleOf(t))
  {
    assert 0.5 != 0.5.Floor as real;
  }

  /** What must be there, and no more. */
  function Least(s: Schema): map<string, Json>
    requires Sent(s) && HasNames(s)
    decreases s, 0
  {
    var p := Listed(s.properties);
    if IsRecord(s) then map[] else map n | n in Given(s.required) && Has(p, n) :: Sample(At(p, n))
  }

  function Sample(s: Schema): Json
    requires Sent(s)
    decreases s, 1
  {
    if IsAny(s) then Null
    else if IsScalar(s) then SampleOf(s.types.value[0])
    else if IsLiteral(s) then ValuesOf(s)[0]
    else if IsUnion(s) then Sample(s.anyOf.list[0])
    else if IsList(s) then Arr([])
    else Obj(Least(s))
  }

  lemma {:induction false} SampleConforms(w: World, tidy: bool, s: Schema)
    requires Sent(s)
    ensures Conforms(w, tidy, s, Sample(s))
    decreases s, 1
  {
    if IsAny(s) {
      BareConforms(w, tidy, s, Null);
    } else if IsScalar(s) {
      SampleTells(s.types.value[0]);
      ScalarValues(w, tidy, s, Sample(s));
    } else if IsLiteral(s) {
      LiteralValues(w, tidy, s, Sample(s));
    } else if IsUnion(s) {
      SampleConforms(w, tidy, s.anyOf.list[0]);
      UnionValues(w, tidy, s, Sample(s));
    } else if IsList(s) {
      ListValues(w, tidy, s, Sample(s));
    } else {
      LeastConforms(w, tidy, s);
      NamedValues(w, tidy, s, Sample(s));
    }
  }

  lemma {:induction false} LeastConforms(w: World, tidy: bool, s: Schema)
    requires Sent(s) && HasNames(s)
    ensures ObjectConforms(w, tidy, s, Least(s))
    ensures forall n :: n in Least(s) <==> n in Given(s.required)
    decreases s, 0
  {
    LeastKeys(s);
    hide Conforms, ObjectConforms, Sent;
    forall n | n in Least(s) ensures HoldsUnder(w, tidy, s, n, Least(s)[n]) {
      assert !IsRecord(s);
      var t := At(Listed(s.properties), n);
      assert Under(w, s, n) == Some(t);
      SampleConforms(w, tidy, t);
    }
    MembersConform(w, tidy, s, Least(s));
  }

  lemma LeastKeys(s: Schema)
    requires Sent(s) && HasNames(s)
    ensures forall n :: n in Least(s) <==> n in Given(s.required)
    ensures Least(s) != map[] ==> !IsRecord(s)
  {
  }

  /** Any value a name takes can be there. */
  lemma MemberConforms(w: World, tidy: bool, s: Schema, n: string, x: Json)
    requires Sent(s) && HasNames(s) && HoldsUnder(w, tidy, s, n, x)
    ensures Conforms(w, tidy, s, Obj(Least(s)[n := x]))
  {
    hide *;
    LeastConforms(w, tidy, s);
    var least := Least(s);
    var members := least[n := x];
    MembersConform(w, tidy, s, least);
    forall m | m in members ensures HoldsUnder(w, tidy, s, m, members[m]) {
      assert m != n ==> m in least && members[m] == least[m];
    }
    MembersConform(w, tidy, s, members);
    NamedValues(w, tidy, s, Obj(members));
  }

  // ---------------------------------------------------------------- containment is exact

  ghost predicate NameSafe(w: World, tidy: bool, sub: Schema, sup: Schema, n: string)
    requires HasNames(sub) && HasNames(sup) && Under(w, sub, n).Some?
  {
    if Under(w, sup, n).Some? then Safe(w, tidy, Under(w, sub, n).value, Under(w, sup, n).value)
    else sup.additional != Flag(false)
  }

  /** Anything can stand under the name. */
  ghost predicate OtherSafe(w: World, sup: Schema, n: string)
    requires HasNames(sup)
  {
    forall x :: HoldsUnder(w, false, sup, n, x)
  }

  lemma NamesSafe(w: World, tidy: bool, sub: Schema, sup: Schema)
    requires Sent(sub) && HasNames(sub) && HasNames(sup)
    ensures Safe(w, tidy, sub, sup) <==>
            && (forall n :: n in Given(sup.required) ==> n in Given(sub.required))
            && (forall n :: Under(w, sub, n).Some? ==> NameSafe(w, tidy, sub, sup, n))
            && (Loose(tidy, sub) ==> forall n :: Under(w, sub, n).None? ==> OtherSafe(w, sup, n))
  {
    hide Conforms, ObjectConforms, Sent, Least, HasNames, Under, NameSafe, OtherSafe;
    if Safe(w, tidy, sub, sup) {
      LeastConforms(w, tidy, sub);
      NamedValues(w, tidy, sub, Obj(Least(sub)));
      NamedValues(w, false, sup, Obj(Least(sub)));
      MembersConform(w, false, sup, Least(sub));
      forall n | Under(w, sub, n).Some? ensures NameSafe(w, tidy, sub, sup, n) { SafeUnder(w, tidy, sub, sup, n); }
      forall n | Loose(tidy, sub) && Under(w, sub, n).None? ensures OtherSafe(w, sup, n) { SafeBesides(w, tidy, sub, sup, n); }
    }
    if (forall n :: n in Given(sup.required) ==> n in Given(sub.required))
       && (forall n :: Under(w, sub, n).Some? ==> NameSafe(w, tidy, sub, sup, n))
       && (Loose(tidy, sub) ==> forall n :: Under(w, sub, n).None? ==> OtherSafe(w, sup, n)) {
      forall v | Conforms(w, tidy, sub, v) ensures Conforms(w, false, sup, v) { NamesSafeAt(w, tidy, sub, sup, v); }
    }
  }

  /** What is safe as a whole is safe under each name. */
  lemma SafeMember(w: World, tidy: bool, sub: Schema, sup: Schema, n: string, x: Json)
    requires Sent(sub) && HasNames(sub) && HasNames(sup) && Safe(w, tidy, sub, sup) && HoldsUnder(w, tidy, sub, n, x)
    ensures HoldsUnder(w, false, sup, n, x)
  {
    hide Conforms, ObjectConforms, Sent, Least, HasNames, Under, HoldsUnder;
    MemberConforms(w, tidy, sub, n, x);
    var members := Least(sub)[n := x];
    NamedValues(w, false, sup, Obj(members));
    MembersConform(w, false, sup, members);
    assert members[n] == x;
  }

  lemma SafeBesides(w: World, tidy: bool, sub: Schema, sup: Schema, n: string)
    requires Sent(sub) && HasNames(sub) && HasNames(sup) && Safe(w, tidy, sub, sup)
    requires Loose(tidy, sub) && Under(w, sub, n).None?
    ensures OtherSafe(w, sup, n)
  {
    forall x ensures HoldsUnder(w, false, sup, n, x) {
      assert HoldsUnder(w, tidy, sub, n, x);
      hide *;
      SafeMember(w, tidy, sub, sup, n, x);
    }
  }

  lemma SafeUnder(w: World, tidy: bool, sub: Schema, sup: Schema, n: string)
    requires Sent(sub) && HasNames(sub) && HasNames(sup) && Safe(w, tidy, sub, sup) && Under(w, sub, n).Some?
    ensures NameSafe(w, tidy, sub, sup, n)
  {
    hide Conforms, ObjectConforms, Sent, Least, HasNames, Under;
    forall x | Conforms(w, tidy, Under(w, sub, n).value, x) ensures HoldsUnder(w, false, sup, n, x) {
      SafeMember(w, tidy, sub, sup, n, x);
    }
    SampleConforms(w, tidy, Under(w, sub, n).value);
  }

  lemma NamesSafeAt(w: World, tidy: bool, sub: Schema, sup: Schema, v: Json)
    requires HasNames(sub) && HasNames(sup) && Conforms(w, tidy, sub, v)
    requires forall n :: n in Given(sup.required) ==> n in Given(sub.required)
    requires forall n :: Under(w, sub, n).Some? ==> NameSafe(w, tidy, sub, sup, n)
    requires Loose(tidy, sub) ==> forall n :: Under(w, sub, n).None? ==> OtherSafe(w, sup, n)
    ensures Conforms(w, false, sup, v)
  {
    hide Conforms, ObjectConforms, HasNames, Under;
    NamedValues(w, tidy, sub, v);
    NamedValues(w, false, sup, v);
    MembersConform(w, tidy, sub, v.members);
    forall n | n in v.members ensures HoldsUnder(w, false, sup, n, v.members[n]) {
      assert HoldsUnder(w, tidy, sub, n, v.members[n]);
      if Under(w, sub, n).Some? { assert NameSafe(w, tidy, sub, sup, n); } else { assert OtherSafe(w, sup, n); }
    }
    MembersConform(w, false, sup, v.members);
  }

  lemma ListSafe(w: World, tidy: bool, sub: Schema, sup: Schema)
    requires IsList(sub) && IsList(sup)
    ensures Safe(w, tidy, sub, sup) <==> Safe(w, tidy, sub.items.schema, sup.items.schema)
  {
    hide Conforms;
    if Safe(w, tidy, sub, sup) {
      forall x | Conforms(w, tidy, sub.items.schema, x) ensures Conforms(w, false, sup.items.schema, x) {
        ListValues(w, tidy, sub, Arr([x]));
        ListValues(w, false, sup, Arr([x]));
        assert [x][0] == x;
      }
    }
    if Safe(w, tidy, sub.items.schema, sup.items.schema) {
      forall v | Conforms(w, tidy, sub, v) ensures Conforms(w, false, sup, v) {
        ListValues(w, tidy, sub, v);
        ListValues(w, false, sup, v);
      }
    }
  }

  lemma UnionSafe(w: World, tidy: bool, sub: Schema, sup: Schema)
    requires IsUnion(sub)
    ensures Safe(w, tidy, sub, sup) <==> forall i :: 0 <= i < |sub.anyOf.list| ==> Safe(w, tidy, sub.anyOf.list[i], sup)
  {
    forall v ensures Conforms(w, tidy, sub, v) <==> exists i :: 0 <= i < |sub.anyOf.list| && Conforms(w, tidy, sub.anyOf.list[i], v) {
      UnionValues(w, tidy, sub, v);
    }
    hide Conforms;
  }

  /** A scalar under a schema. */
  lemma ScalarAdmitted(w: World, s: Schema, v: Json)
    requires Simple(s) && !IsAny(s) && Scalar(v)
    ensures Conforms(w, false, s, v) <==> LeafAdmits(s, v)
  {
    if IsLiteral(s) {
      LiteralValues(w, false, s, v);
    } else if IsScalar(s) {
      ScalarValues(w, false, s, v);
    } else if IsList(s) {
      ListValues(w, false, s, v);
    } else {
      NamedValues(w, false, s, v);
    }
  }

  lemma LiteralSafe(w: World, tidy: bool, sub: Schema, sup: Schema)
    requires IsLiteral(sub) && Simple(sup) && !IsAny(sup)
    ensures Safe(w, tidy, sub, sup) <==> forall v :: v in ValuesOf(sub) ==> LeafAdmits(sup, v)
  {
    hide Conforms, Simple, LeafAdmits;
    forall v ensures Conforms(w, tidy, sub, v) <==> v in ValuesOf(sub) { LiteralValues(w, tidy, sub, v); }
    forall v | v in ValuesOf(sub) ensures Conforms(w, false, sup, v) <==> LeafAdmits(sup, v) { ScalarAdmitted(w, sup, v); }
  }

  // -------- types without end

  function Above(values: seq<Json>): (n: int)
    ensures forall i :: 0 <= i < |values| && values[i].Num? ==> values[i].number < n as real
  {
    if values == [] then 0
    else
      var rest, v := Above(values[1..]), values[0];
      if v.Num? && v.number.Floor + 1 > rest then v.number.Floor + 1 else rest
  }

  function Longer(values: seq<Json>): (n: nat)
    ensures forall i :: 0 <= i < |values| && values[i].Str? ==> |values[i].text| < n
  {
    if values == [] then 0
    else
      var rest, v := Longer(values[1..]), values[0];
      if v.Str? && |v.text| >= rest then |v.text| + 1 else rest
  }

  /** A value of the type that is not listed, if there is one. */
  lemma Unlisted(t: string, values: seq<Json>)
    requires IsScalarType(t)
    ensures AllListed(t, values) <==> forall v :: Scalar(v) && IsType(t, v) ==> v in values
  {
    var number, text := Num(Above(values) as real), Str(seq(Longer(values), _ => 'a'));
    assert number !in values && text !in values;
    assert (t == "number" || t == "integer") ==> IsType(t, number);
    assert t == "string" ==> IsType(t, text);
    if AllListed(t, values) {
      forall v | Scalar(v) && IsType(t, v) ensures v in values {
        if t == "boolean" { assert v == Bool(true) || v == Bool(false); }
      }
    } else {
      assert t == "null" ==> IsType(t, Null) && Null !in values;
      assert t == "boolean" ==> IsType(t, Bool(true)) && IsType(t, Bool(false));
    }
  }

  /** Everything a schema without an end admits cannot be listed. */
  lemma ListedSafe(w: World, tidy: bool, sub: Schema, sup: Schema)
    requires Sent(sub) && !IsUnion(sub) && !IsLiteral(sub) && IsLiteral(sup)
    ensures Safe(w, tidy, sub, sup) <==> IsScalar(sub) && forall t :: t in sub.types.value ==> AllListed(t, ValuesOf(sup))
  {
    hide Conforms;
    forall v ensures Conforms(w, false, sup, v) <==> v in ValuesOf(sup) { LiteralValues(w, false, sup, v); }
    if IsScalar(sub) {
      ScalarsListed(w, tidy, sub, sup);
    } else {
      UnscalarSample(w, tidy, sub);
    }
  }

  lemma ScalarsListed(w: World, tidy: bool, sub: Schema, sup: Schema)
    requires IsScalar(sub) && forall v :: Conforms(w, false, sup, v) <==> v in ValuesOf(sup)
    ensures Safe(w, tidy, sub, sup) <==> forall t :: t in sub.types.value ==> AllListed(t, ValuesOf(sup))
  {
    hide Conforms, AllListed;
    forall v ensures Conforms(w, tidy, sub, v) <==> exists t :: t in sub.types.value && IsType(t, v) { ScalarValues(w, tidy, sub, v); }
    forall t | t in sub.types.value
      ensures AllListed(t, ValuesOf(sup)) <==> forall v :: Scalar(v) && IsType(t, v) ==> v in ValuesOf(sup)
    {
      Unlisted(t, ValuesOf(sup));
    }
    assert forall t, v :: t in sub.types.value && IsType(t, v) ==> Scalar(v);
  }

  lemma UnscalarSample(w: World, tidy: bool, s: Schema)
    requires Sent(s) && !IsUnion(s) && !IsLiteral(s) && !IsScalar(s)
    ensures exists v :: Conforms(w, tidy, s, v) && !Scalar(v)
  {
    if IsAny(s) {
      AnyAdmits(w, s, Arr([]));
      assert !Scalar(Arr([]));
    } else {
      SampleConforms(w, tidy, s);
      assert !Scalar(Sample(s));
    }
  }

  /** A value that shows the type of a schema. */
  lemma TypeSafe(w: World, tidy: bool, sub: Schema, sup: Schema)
    requires Sent(sub) && !IsUnion(sub) && !IsLiteral(sub) && Simple(sup) && !IsLiteral(sup) && !IsAny(sup) && Safe(w, tidy, sub, sup)
    ensures sub.types.Some? && sup.types.Some? && TypesFit(sub.types.value, sup.types.value)
  {
    SampleConforms(w, tidy, sub);
    hide Conforms;
    if IsAny(sub) {
      AnyAdmits(w, sub, Null);
      AnyAdmits(w, sub, Arr([]));
      TypeOf(w, sup, Null);
      TypeOf(w, sup, Arr([]));
    } else {
      TypeOf(w, sup, Sample(sub));
      if IsScalar(sub) { ScalarTypes(w, tidy, sub, sup); }
    }
  }

  lemma AnyAdmits(w: World, s: Schema, v: Json)
    requires IsAny(s)
    ensures forall tidy :: Conforms(w, tidy, s, v)
  {
    BareConforms(w, true, s, v);
    BareConforms(w, false, s, v);
  }

  lemma ScalarTypes(w: World, tidy: bool, sub: Schema, sup: Schema)
    requires IsScalar(sub) && Simple(sup) && !IsLiteral(sup) && !IsAny(sup) && Safe(w, tidy, sub, sup) && sup.types.Some?
    ensures TypesFit(sub.types.value, sup.types.value)
  {
    hide Conforms, Simple, IsAny, IsLiteral;
    forall t | t in sub.types.value ensures t in sup.types.value || (t == "integer" && "number" in sup.types.value) {
      SampleTells(t);
      ScalarValues(w, tidy, sub, SampleOf(t));
      TypeOf(w, sup, SampleOf(t));
    }
  }

  lemma TypeOf(w: World, s: Schema, v: Json)
    requires Simple(s) && !IsLiteral(s) && !IsAny(s)
    ensures s.types.Some?
    ensures Conforms(w, false, s, v) ==> exists t :: t in s.types.value && IsType(t, v)
  {
    BareConforms(w, false, s, v);
  }

  /** Schemas whose types fit are of one kind. */
  lemma KindsMeet(sub: Schema, sup: Schema)
    requires Sent(sub) && !IsUnion(sub) && !IsLiteral(sub) && Simple(sup) && !IsLiteral(sup)
    requires sub.types.Some? && sup.types.Some? && TypesFit(sub.types.value, sup.types.value)
    ensures !IsAny(sub) && !IsAny(sup)
    ensures (IsScalar(sub) ==> IsScalar(sup)) && (IsList(sub) ==> IsList(sup)) && (HasNames(sub) ==> HasNames(sup))
  {
    assert sub.types.value != [] ==> sub.types.value[0] in sub.types.value;
  }

  lemma ScalarSafe(w: World, tidy: bool, sub: Schema, sup: Schema)
    requires IsScalar(sub) && IsScalar(sup) && TypesFit(sub.types.value, sup.types.value)
    ensures Safe(w, tidy, sub, sup)
  {
    hide Conforms;
    forall v | Conforms(w, tidy, sub, v) ensures Conforms(w, false, sup, v) {
      ScalarValues(w, tidy, sub, v);
      ScalarValues(w, false, sup, v);
      var t :| t in sub.types.value && IsType(t, v);
      assert t in sup.types.value || (t == "integer" && "number" in sup.types.value && IsType("number", v));
    }
  }

  /** In any nesting: whatever `sub` admits `sup` admits, if and only if it is within it. */
  lemma {:induction false} WithinIff(w: World, tidy: bool, sub: Schema, sup: Schema)
    requires Sent(sub) && Simple(sup)
    ensures Safe(w, tidy, sub, sup) <==> Within(w, tidy, sub, sup)
    decreases sub, 1
  {
    if IsAny(sup) {
      forall v ensures Conforms(w, false, sup, v) { AnyAdmits(w, sup, v); }
    } else if IsUnion(sub) {
      forall i | 0 <= i < |sub.anyOf.list| ensures Safe(w, tidy, sub.anyOf.list[i], sup) <==> Within(w, tidy, sub.anyOf.list[i], sup) {
        WithinIff(w, tidy, sub.anyOf.list[i], sup);
      }
      UnionSafe(w, tidy, sub, sup);
    } else if IsLiteral(sub) {
      LiteralSafe(w, tidy, sub, sup);
    } else if IsLiteral(sup) {
      ListedSafe(w, tidy, sub, sup);
    } else {
      TypesIff(w, tidy, sub, sup);
    }
  }

  lemma ScalarKind(s: Schema)
    requires IsScalar(s)
    ensures !IsList(s) && !HasNames(s)
  {
    assert ["array"][0] == "array" && ["object"][0] == "object";
    assert "object"[0] == 'o' && "number"[0] == 'n' && "string"[0] == 's';
    assert !IsScalarType("array") && !IsScalarType("object");
  }

  lemma {:induction false} TypesIff(w: World, tidy: bool, sub: Schema, sup: Schema)
    requires Sent(sub) && !IsUnion(sub) && !IsLiteral(sub) && Simple(sup) && !IsLiteral(sup) && !IsAny(sup)
    ensures Safe(w, tidy, sub, sup) <==> Within(w, tidy, sub, sup)
    decreases sub, 0, 1
  {
    if !(sub.types.Some? && sup.types.Some? && TypesFit(sub.types.value, sup.types.value)) {
      if Safe(w, tidy, sub, sup) { TypeSafe(w, tidy, sub, sup); }
    } else {
      KindsMeet(sub, sup);
      if IsScalar(sub) {
        ScalarKind(sub);
        ScalarSafe(w, tidy, sub, sup);
      } else if IsList(sub) {
        WithinIff(w, tidy, sub.items.schema, sup.items.schema);
        ListSafe(w, tidy, sub, sup);
      } else {
        NamesIff(w, tidy, sub, sup);
      }
    }
  }

  ghost predicate AdmitsAll(w: World, s: Schema) {
    forall x :: Conforms(w, false, s, x)
  }

  /** Only the schema that says nothing admits everything. */
  lemma AnyIff(w: World, s: Schema)
    requires Simple(s)
    ensures AdmitsAll(w, s) <==> IsAny(s)
  {
    if IsAny(s) {
      forall x ensures Conforms(w, false, s, x) { AnyAdmits(w, s, x); }
    } else if IsLiteral(s) {
      LiteralValues(w, false, s, Arr([]));
      assert !Scalar(Arr([]));
    } else {
      TypeOf(w, s, Null);
      TypeOf(w, s, Arr([]));
      assert !IsScalar(s) ==> s.types == Some(["array"]) || s.types == Some(["object"]);
      hide Conforms, Simple;
      assert !Conforms(w, false, s, Null) || !Conforms(w, false, s, Arr([]));
    }
  }

  lemma OtherIff(w: World, sup: Schema, n: string)
    requires Simple(sup) && HasNames(sup)
    ensures OtherSafe(w, sup, n) <==> OtherWithin(w, sup, n)
  {
    hide Conforms, IsAny, Under, Simple, HasNames;
    if Under(w, sup, n).Some? {
      var t := Under(w, sup, n).value;
      if OtherSafe(w, sup, n) {
        forall x ensures Conforms(w, false, t, x) { assert HoldsUnder(w, false, sup, n, x); }
      }
      assert OtherSafe(w, sup, n) <==> AdmitsAll(w, t);
      AnyIff(w, t);
    } else {
      assert HoldsUnder(w, false, sup, n, Null) <==> sup.additional != Flag(false);
    }
  }

  lemma {:induction false} NamesIff(w: World, tidy: bool, sub: Schema, sup: Schema)
    requires Sent(sub) && Simple(sup) && HasNames(sub) && HasNames(sup)
    ensures Safe(w, tidy, sub, sup) <==> NamesWithin(w, tidy, sub, sup)
    decreases sub, 0, 0
  {
    hide Within, KnownWithin, OthersWithin, OtherSafe, OtherWithin, Safe, HasNames, Simple, Sent;
    forall n | Under(w, sub, n).Some? ensures NameSafe(w, tidy, sub, sup, n) <==> NameWithin(w, tidy, sub, sup, n) {
      if Under(w, sup, n).Some? { WithinIff(w, tidy, Under(w, sub, n).value, Under(w, sup, n).value); }
    }
    hide Under, NameSafe, NameWithin;
    forall n ensures OtherSafe(w, sup, n) <==> OtherWithin(w, sup, n) { OtherIff(w, sup, n); }
    ByName(w, tidy, sub, sup);
    OthersByName(w, sub, sup);
    NamesSafe(w, tidy, sub, sup);
  }

  // ---------------------------------------------------------------- what `fits` does not look at

  /**
   The rest of the condition once `fits` said yes.  Wherever a record of `sub` stands where `sup` has an object, each
   property its pattern matches takes what the record brings, and a closed object knows every name it matches.  And
   wherever an open record or object of `sub` that is not stripped stands where `sup` has an object, each property that
   only `sup` knows stands for anything.
   */
  ghost predicate Agree(w: World, tidy: bool, sub: Schema, sup: Schema)
    requires Sent(sub) && Simple(sup)
    decreases sub, 3
  {
    || IsAny(sup) || Same(Bare(sub), Bare(sup))
    || if IsUnion(sub) then forall i :: 0 <= i < |sub.anyOf.list| ==> Agree(w, tidy, sub.anyOf.list[i], sup)
       else
         (&& (IsList(sub) && IsList(sup) ==> Agree(w, tidy, sub.items.schema, sup.items.schema))
          && (HasNames(sub) && HasNames(sup) ==> NamesAgree(w, tidy, sub, sup)))
  }

  ghost predicate NamesAgree(w: World, tidy: bool, sub: Schema, sup: Schema)
    requires Sent(sub) && Simple(sup) && HasNames(sub) && HasNames(sup)
    decreases sub, 2
  {
    KnownAgree(w, tidy, sub, sup) && (Loose(tidy, sub) && !IsRecord(sup) ==> TakesOthers(w, sub, sup))
  }

  ghost predicate KnownAgree(w: World, tidy: bool, sub: Schema, sup: Schema)
    requires Sent(sub) && Simple(sup) && HasNames(sub) && HasNames(sup)
    decreases sub, 1
  {
    var subP := Listed(sub.properties);
    if !IsRecord(sub) then
      forall i :: 0 <= i < |subP| && Under(w, sup, subP[i].name).Some? ==>
        Agree(w, tidy, subP[i].schema, Under(w, sup, subP[i].name).value)
    else if !IsRecord(sup) then
      MatchedWithin(w, tidy, sub, sup) && NamesKnown(w, sub, sup)
    else
      var p, q := Listed(sub.patterns)[0], Listed(sup.patterns)[0];
      (exists n :: w.matches(p.name, n) && w.matches(q.name, n)) ==> Agree(w, tidy, p.schema, q.schema)
  }

  lemma FitsParts(w: World, sub: Schema, sup: Schema)
    requires Sent(sub) && !IsUnion(sub) && !IsLiteral(sub) && Simple(sup) && Fits(w, sub, sup)
    requires !IsAny(sup) && !Same(Bare(sub), Bare(sup))
    ensures !IsLiteral(sup)
    ensures sub.types.Some? && sup.types.Some? && TypesFit(sub.types.value, sup.types.value)
    ensures IsList(sub) && IsList(sup) ==> Fits(w, sub.items.schema, sup.items.schema)
    ensures HasNames(sub) && HasNames(sup) ==> ObjectFits(w, Bare(sub), Bare(sup))
  {
    var a, b := Bare(sub), Bare(sup);
    assert Structural(w, a, b);
    assert a.constant.None? && a.values.None? && a.anyOf.NoBranches? && b.anyOf.NoBranches?;
    hide Fits, Same, ObjectFits, ArrayFits, FunctionFits, Weight;
    assert !IsLiteral(sup) && Typed(w, a, b);
    assert ["array"][0] == "array" && ["object"][0] == "object";
    if IsList(sub) && IsList(sup) { ListFits(w, a, b); }
  }

  lemma ListFits(w: World, sub: Schema, sup: Schema)
    requires Typed(w, sub, sup) && sub.types == Some(["array"]) && sub.constant.None? && sub.values.None?
    requires sub.items.Each? && sup.items.Each?
    ensures Fits(w, sub.items.schema, sup.items.schema)
  {
    assert "array" in sub.types.value by { assert ["array"][0] == "array"; }
    assert ArrayFits(w, sub, sup);
    hide Fits;
  }

  /** Every branch of what is sent fits. */
  lemma BranchFits(w: World, sub: Schema, sup: Schema, i: nat)
    requires IsUnion(sub) && Simple(sup) && Fits(w, sub, sup) && !IsAny(sup) && i < |sub.anyOf.list|
    ensures Fits(w, sub.anyOf.list[i], sup)
  {
    var a, b := Bare(sub), Bare(sup);
    assert !Same(a, b) && Structural(w, a, b);
    hide Same, Structural, Weight;
    assert Fits(w, sub.anyOf.list[i], b);
    assert Bare(b) == b;
  }

  /** What fits of a literal is all there is to it. */
  lemma LiteralFits(w: World, sub: Schema, sup: Schema)
    requires IsLiteral(sub) && Simple(sup) && Fits(w, sub, sup) && !IsAny(sup) && !Same(Bare(sub), Bare(sup))
    ensures forall v :: v in ValuesOf(sub) ==> LeafAdmits(sup, v)
  {
    var a, b := Bare(sub), Bare(sup);
    assert Structural(w, a, b);
    assert a.anyOf.NoBranches? && b.anyOf.NoBranches?;
    hide Fits, Same, ObjectFits, ArrayFits, FunctionFits, Weight;
    if sup.constant.None? && sup.values.None? {
      assert Typed(w, a, b) && !IsLiteral(sup);
      forall v | v in ValuesOf(sub) ensures LeafAdmits(sup, v) {
        var t :| t in sub.types.value && IsType(t, v);
        assert t in sup.types.value || ("number" in sup.types.value && IsType("number", v));
      }
    } else {
      assert IsLiteral(sup);
    }
  }

  /** A name both have: its schemas fit. */
  lemma ObjectFitsUnder(w: World, sub: Schema, sup: Schema, i: nat)
    requires IsObject(sub) && !IsRecord(sub) && HasNames(sup) && ObjectFits(w, Bare(sub), Bare(sup))
    requires i < |Listed(sub.properties)|
    ensures var p, other := Listed(sub.properties)[i], Under(w, sup, Listed(sub.properties)[i].name);
            if other.Some? then Fits(w, p.schema, other.value) else sup.additional != Flag(false)
  {
    var subP, supP, p := Listed(sub.properties), Listed(sup.properties), Listed(sub.properties)[i];
    hide Fits;
    AtIndex(subP, i);
    if IsRecord(sup) {
      assert PatternsFit(w, Bare(sub), Bare(sup));
    } else if Has(supP, p.name) {
      var j :| 0 <= j < |supP| && supP[j].name == p.name && supP[j].schema == At(supP, p.name);
    }
  }

  lemma RecordFitsUnder(w: World, sub: Schema, sup: Schema)
    requires IsRecord(sub) && IsRecord(sup) && ObjectFits(w, Bare(sub), Bare(sup))
    ensures var p, q := Listed(sub.patterns)[0], Listed(sup.patterns)[0]; p.name == q.name && Fits(w, p.schema, q.schema)
  {
    hide Fits;
    assert PatternsFit(w, Bare(sub), Bare(sup));
  }

  /** What fits is within exactly if the rest agrees. */
  lemma {:induction false} FitsWithin(w: World, tidy: bool, sub: Schema, sup: Schema)
    requires Sent(sub) && Simple(sup) && Fits(w, sub, sup)
    ensures Within(w, tidy, sub, sup) <==> Agree(w, tidy, sub, sup)
    decreases sub, 1
  {
    hide Fits, Same;
    if IsAny(sup) {
    } else if Same(Bare(sub), Bare(sup)) {
      SameSafe(w, tidy, sub, sup);
      WithinIff(w, tidy, sub, sup);
    } else if IsUnion(sub) {
      hide Simple;
      forall i | 0 <= i < |sub.anyOf.list| ensures Within(w, tidy, sub.anyOf.list[i], sup) <==> Agree(w, tidy, sub.anyOf.list[i], sup) {
        BranchFits(w, sub, sup, i);
        FitsWithin(w, tidy, sub.anyOf.list[i], sup);
      }
    } else if IsLiteral(sub) {
      LiteralFits(w, sub, sup);
    } else {
      FitsParts(w, sub, sup);
      KindsMeet(sub, sup);
      hide ObjectFits, TypesFit;
      if IsList(sub) { FitsWithin(w, tidy, sub.items.schema, sup.items.schema); }
      if HasNames(sub) { NamesFitWithin(w, tidy, sub, sup); }
    }
  }

  lemma SameSafe(w: World, tidy: bool, sub: Schema, sup: Schema)
    requires Same(Bare(sub), Bare(sup))
    ensures Safe(w, tidy, sub, sup)
  {
    hide Conforms, Bare, Same;
    forall v | Conforms(w, tidy, sub, v) ensures Conforms(w, false, sup, v) {
      if tidy { TidyConforms(w, sub, v); }
      BareConforms(w, false, sub, v);
      SameConforms(w, false, Bare(sub), Bare(sup), v);
      BareConforms(w, false, sup, v);
    }
  }

  lemma {:induction false} NamesFitWithin(w: World, tidy: bool, sub: Schema, sup: Schema)
    requires Sent(sub) && Simple(sup) && HasNames(sub) && HasNames(sup) && ObjectFits(w, Bare(sub), Bare(sup))
    ensures NamesWithin(w, tidy, sub, sup) <==> NamesAgree(w, tidy, sub, sup)
    decreases sub, 0, 2
  {
    hide KnownWithin, KnownAgree, OthersWithin, TakesOthers, ObjectFits, Sent, Simple, IsRecord, IsObject;
    RequiredFits(w, sub, sup);
    KnownFitWithin(w, tidy, sub, sup);
    if Loose(tidy, sub) { OthersFitWithin(w, sub, sup); }
  }

  lemma {:induction false} KnownFitWithin(w: World, tidy: bool, sub: Schema, sup: Schema)
    requires Sent(sub) && Simple(sup) && HasNames(sub) && HasNames(sup) && ObjectFits(w, Bare(sub), Bare(sup))
    ensures KnownWithin(w, tidy, sub, sup) <==> KnownAgree(w, tidy, sub, sup)
    decreases sub, 0, 1
  {
    hide Within, Agree, Fits;
    if !IsRecord(sub) {
      PropertiesFitWithin(w, tidy, sub, sup);
    } else if IsRecord(sup) {
      PatternFitWithin(w, tidy, sub, sup);
    }
    hide ObjectFits, MatchedWithin, Sent, Simple, NamesKnown, Under, IsObject;
  }

  lemma {:induction false} PatternFitWithin(w: World, tidy: bool, sub: Schema, sup: Schema)
    requires Sent(sub) && Simple(sup) && IsRecord(sub) && IsRecord(sup) && ObjectFits(w, Bare(sub), Bare(sup))
    ensures var p, q := Listed(sub.patterns)[0], Listed(sup.patterns)[0];
            NamesKnown(w, sub, sup) && (Within(w, tidy, p.schema, q.schema) <==> Agree(w, tidy, p.schema, q.schema))
    decreases sub, 0, 0
  {
    hide Within, Agree, Fits, ObjectFits;
    RecordFitsUnder(w, sub, sup);
    FitsWithin(w, tidy, Listed(sub.patterns)[0].schema, Listed(sup.patterns)[0].schema);
  }

  /** Of the names only `sup` knows `fits` settles those of records, and that a closed `sup` gets no others. */
  lemma OthersFitWithin(w: World, sub: Schema, sup: Schema)
    requires HasNames(sub) && HasNames(sup) && ObjectFits(w, Bare(sub), Bare(sup)) && sub.additional != Flag(false)
    ensures OthersWithin(w, sub, sup) <==> (!IsRecord(sup) ==> TakesOthers(w, sub, sup))
  {
    hide Fits;
    if IsRecord(sup) {
      assert PatternsFit(w, Bare(sub), Bare(sup));
      if IsRecord(sub) { RecordFitsUnder(w, sub, sup); }
    }
    hide TakesOthers;
  }

  lemma RequiredFits(w: World, sub: Schema, sup: Schema)
    requires ObjectFits(w, Bare(sub), Bare(sup))
    ensures forall n :: n in Given(sup.required) ==> n in Given(sub.required)
  {
    hide Fits, PatternsFit;
  }

  lemma {:induction false} PropertiesFitWithin(w: World, tidy: bool, sub: Schema, sup: Schema)
    requires Sent(sub) && Simple(sup) && IsObject(sub) && !IsRecord(sub) && HasNames(sup) && ObjectFits(w, Bare(sub), Bare(sup))
    ensures forall i :: 0 <= i < |Listed(sub.properties)| ==>
              var p, other := Listed(sub.properties)[i], Under(w, sup, Listed(sub.properties)[i].name);
              if other.Some? then Within(w, tidy, p.schema, other.value) <==> Agree(w, tidy, p.schema, other.value)
              else sup.additional != Flag(false)
    decreases sub, 0, 0
  {
    var subP := Listed(sub.properties);
    hide Within, Agree, Fits, ObjectFits;
    forall i | 0 <= i < |subP|
      ensures var other := Under(w, sup, subP[i].name);
              if other.Some? then Within(w, tidy, subP[i].schema, other.value) <==> Agree(w, tidy, subP[i].schema, other.value)
              else sup.additional != Flag(false)
    {
      ObjectFitsUnder(w, sub, sup, i);
      var other := Under(w, sup, subP[i].name);
      if other.Some? { FitsWithin(w, tidy, subP[i].schema, other.value); }
    }
  }

  /**
   Exactly when `fits` is right: once it says yes, whatever is sent under `sub` conforms to `sup` if and only if the
   records, and the open objects that are not stripped, agree with the objects they stand for.
   */
  lemma FitsIff(w: World, tidy: bool, sub: Schema, sup: Schema)
    requires Sent(sub) && Simple(sup) && Fits(w, sub, sup)
    ensures Safe(w, tidy, sub, sup) <==> Agree(w, tidy, sub, sup)
  {
    FitsWithin(w, tidy, sub, sup);
    WithinIff(w, tidy, sub, sup);
  }
}
