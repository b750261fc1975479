/** Contract descriptions, and when a provider's covers a consumer's. */
module Contracts {
  import opened Schemas
  import opened Wrappers
  import opened Containment

  datatype Member = Method(args: Option<Schema>, result: Option<Schema>) | State(schema: Schema) | Opaque(id: string)

  datatype Entry = Entry(name: string, member: Member)
  datatype Variant = Variant(kind: string, members: seq<Entry>)
  datatype Scope = RemoteScope | LocalScope

  /** `host`: the placement as JSON, or null. */
  datatype Description = Description(name: string, scope: Scope, version: nat, host: Json, input: Schema, variants: seq<Variant>)

  datatype Reason =
    | DifferentType
    | Host
    | Input
    | VariantMissing(kind: string)
    | MemberMissing(kind: string, name: string)
    | Arguments(kind: string, name: string)
    | ResultReason(kind: string, name: string)
    | StateReason(kind: string, name: string)
    | OpaqueReason(kind: string, name: string)

  function VariantOf(list: seq<Variant>, kind: string): Option<Variant>
    decreases |list|
  {
    if list == [] then None else if list[0].kind == kind then Some(list[0]) else VariantOf(list[1..], kind)
  }

  function MemberOf(list: seq<Entry>, name: string): Option<Member>
    decreases |list|
  {
    if list == [] then None else if list[0].name == name then Some(list[0].member) else MemberOf(list[1..], name)
  }

  // ---------------------------------------------------------------- coverage

  function CoverMember(w: World, offered: Member, wanted: Member, kind: string, name: string): Option<Reason> {
    match (offered, wanted)
    case (Method(args, result), Method(wantedArgs, wantedResult)) =>
      if wantedArgs.None? != args.None? then Some(Arguments(kind, name))
      else if wantedArgs.Some? && !Fits(w, wantedArgs.value, args.value) then Some(Arguments(kind, name))
      else if wantedResult.Some? && (result.None? || !Fits(w, result.value, wantedResult.value)) then
        Some(ResultReason(kind, name))
      else None
    case (State(schema), State(wantedSchema)) =>
      if !Fits(w, schema, wantedSchema) then Some(StateReason(kind, name)) else None
    case (Opaque(id), Opaque(wantedId)) => if id != wantedId then Some(OpaqueReason(kind, name)) else None
    case _ => Some(MemberMissing(kind, name))
  }

  function CoverMembers(w: World, offered: seq<Entry>, wanted: seq<Entry>, kind: string): Option<Reason>
    decreases |wanted|
  {
    if wanted == [] then None
    else
      var found := MemberOf(offered, wanted[0].name);
      var first := if found.None? then Some(MemberMissing(kind, wanted[0].name))
                   else CoverMember(w, found.value, wanted[0].member, kind, wanted[0].name);
      if first.Some? then first else CoverMembers(w, offered, wanted[1..], kind)
  }

  function CoverVariants(w: World, provider: seq<Variant>, consumer: seq<Variant>): Option<Reason>
    decreases |consumer|
  {
    if consumer == [] then None
    else
      var found := VariantOf(provider, consumer[0].kind);
      var first := if found.None? then Some(VariantMissing(consumer[0].kind))
                   else CoverMembers(w, found.value.members, consumer[0].members, consumer[0].kind);
      if first.Some? then first else CoverVariants(w, provider, consumer[1..])
  }

  /** The first reason found against `provider`; none means covered. */
  function Coverage(w: World, provider: Description, consumer: Description): Option<Reason> {
    if provider.name != consumer.name || provider.scope != consumer.scope then Some(DifferentType)
    else if provider.host != consumer.host then Some(Host)
    else if !Fits(w, consumer.input, provider.input) then Some(Input)
    else CoverVariants(w, provider.variants, consumer.variants)
  }

  // ---------------------------------------------------------------- what it promises

  /**
   Calls the consumer may make are taken, and what comes back is what the consumer expects.  Arguments are stripped to
   what the consumer's schema knows if `strips`; results and state are only checked against the provider's.
   */
  ghost predicate MemberServes(w: World, strips: bool, offered: Member, wanted: Member) {
    match (offered, wanted)
    case (Method(args, result), Method(wantedArgs, wantedResult)) =>
      && (wantedArgs.None? <==> args.None?)
      && (wantedArgs.Some? ==> Safe(w, strips, wantedArgs.value, args.value))
      && (wantedResult.Some? ==> result.Some? && Safe(w, false, result.value, wantedResult.value))
    case (State(schema), State(wantedSchema)) => Safe(w, false, schema, wantedSchema)
    case (Opaque(id), Opaque(wantedId)) => id == wantedId
    case _ => false
  }

  /** Arguments are stripped for remote types, also in calls on one host; local calls pass them as they are. */
  predicate StripsArguments(d: Description) {
    d.scope.RemoteScope?
  }

  /** Input is stripped to what the consumer's schema knows on its way to another host, and not on one host. */
  predicate StripsInput(away: bool, d: Description) {
    away && d.scope.RemoteScope?
  }

  /** `away`: the object lives on another host than the consumer. */
  ghost predicate Serves(w: World, away: bool, provider: Description, consumer: Description) {
    && provider.name == consumer.name && provider.scope == consumer.scope && provider.host == consumer.host
    && Safe(w, StripsInput(away, consumer), consumer.input, provider.input)
    && forall i, j :: 0 <= i < |consumer.variants| && 0 <= j < |consumer.variants[i].members| ==>
         EntryServes(w, provider, consumer.variants[i].kind, consumer.variants[i].members[j])
  }

  ghost predicate EntryServes(w: World, provider: Description, kind: string, entry: Entry) {
    var variant := VariantOf(provider.variants, kind);
    && variant.Some? && MemberOf(variant.value.members, entry.name).Some?
    && MemberServes(w, StripsArguments(provider), MemberOf(variant.value.members, entry.name).value, entry.member)
  }

  /** The pairs of schemas that meet: what one side sends, stripped (`tidy`) or not, and what the other expects. */
  predicate MemberCompares(strips: bool, offered: Member, wanted: Member, tidy: bool, sub: Schema, sup: Schema) {
    match (offered, wanted)
    case (Method(args, result), Method(wantedArgs, wantedResult)) =>
      || (tidy == strips && wantedArgs == Some(sub) && args == Some(sup))
      || (!tidy && result == Some(sub) && wantedResult == Some(sup))
    case (State(schema), State(wantedSchema)) => !tidy && schema == sub && wantedSchema == sup
    case _ => false
  }

  predicate EntryCompares(provider: Description, kind: string, entry: Entry, tidy: bool, sub: Schema, sup: Schema) {
    var variant := VariantOf(provider.variants, kind);
    && variant.Some? && MemberOf(variant.value.members, entry.name).Some?
    && MemberCompares(StripsArguments(provider), MemberOf(variant.value.members, entry.name).value, entry.member, tidy, sub, sup)
  }

  predicate Compared(away: bool, provider: Description, consumer: Description, tidy: bool, sub: Schema, sup: Schema) {
    || (tidy == StripsInput(away, consumer) && sub == consumer.input && sup == provider.input)
    || exists i, j :: 0 <= i < |consumer.variants| && 0 <= j < |consumer.variants[i].members|
         && EntryCompares(provider, consumer.variants[i].kind, consumer.variants[i].members[j], tidy, sub, sup)
  }

  lemma MemberPairs(w: World, strips: bool, offered: Member, wanted: Member, kind: string, name: string)
    requires CoverMember(w, offered, wanted, kind, name).None?
    ensures forall tidy, sub, sup :: MemberCompares(strips, offered, wanted, tidy, sub, sup) ==> Fits(w, sub, sup)
    ensures MemberServes(w, strips, offered, wanted) <==>
            forall tidy, sub, sup :: MemberCompares(strips, offered, wanted, tidy, sub, sup) ==> Safe(w, tidy, sub, sup)
  {
    hide Fits, Safe;
    match (offered, wanted)
    case (Method(args, result), Method(wantedArgs, wantedResult)) =>
      if wantedArgs.Some? { assert MemberCompares(strips, offered, wanted, strips, wantedArgs.value, args.value); }
      if wantedResult.Some? { assert MemberCompares(strips, offered, wanted, false, result.value, wantedResult.value); }
    case (State(schema), State(wantedSchema)) => assert MemberCompares(strips, offered, wanted, false, schema, wantedSchema);
    case _ =>
  }

  lemma {:induction false} CoverMembersAt(w: World, offered: seq<Entry>, wanted: seq<Entry>, kind: string, j: nat)
    requires CoverMembers(w, offered, wanted, kind).None? && j < |wanted|
    ensures MemberOf(offered, wanted[j].name).Some?
    ensures CoverMember(w, MemberOf(offered, wanted[j].name).value, wanted[j].member, kind, wanted[j].name).None?
    decreases |wanted|
  {
    if j > 0 { CoverMembersAt(w, offered, wanted[1..], kind, j - 1); }
  }

  lemma {:induction false} CoverVariantsAt(w: World, provider: seq<Variant>, consumer: seq<Variant>, i: nat)
    requires CoverVariants(w, provider, consumer).None? && i < |consumer|
    ensures VariantOf(provider, consumer[i].kind).Some?
    ensures CoverMembers(w, VariantOf(provider, consumer[i].kind).value.members, consumer[i].members, consumer[i].kind).None?
    decreases |consumer|
  {
    if i > 0 { CoverVariantsAt(w, provider, consumer[1..], i - 1); }
  }

  lemma EntryPairs(w: World, provider: Description, consumer: Description, i: nat, j: nat)
    requires Coverage(w, provider, consumer).None? && i < |consumer.variants| && j < |consumer.variants[i].members|
    ensures var kind, entry := consumer.variants[i].kind, consumer.variants[i].members[j];
            && (forall tidy, sub, sup :: EntryCompares(provider, kind, entry, tidy, sub, sup) ==> Fits(w, sub, sup))
            && (EntryServes(w, provider, kind, entry) <==>
                forall tidy, sub, sup :: EntryCompares(provider, kind, entry, tidy, sub, sup) ==> Safe(w, tidy, sub, sup))
  {
    hide Fits, Safe, CoverMember, CoverMembers, CoverVariants, MemberServes, MemberCompares;
    CoverVariantsAt(w, provider.variants, consumer.variants, i);
    var variant := VariantOf(provider.variants, consumer.variants[i].kind).value;
    var entry := consumer.variants[i].members[j];
    CoverMembersAt(w, variant.members, consumer.variants[i].members, consumer.variants[i].kind, j);
    MemberPairs(w, StripsArguments(provider), MemberOf(variant.members, entry.name).value, entry.member,
                consumer.variants[i].kind, entry.name);
  }

  /** Once covered, every pair that meets fits, and the consumer is served exactly if every such pair is safe. */
  lemma CoveredPairs(w: World, away: bool, provider: Description, consumer: Description)
    requires Coverage(w, provider, consumer).None?
    ensures forall tidy, sub, sup :: Compared(away, provider, consumer, tidy, sub, sup) ==> Fits(w, sub, sup)
    ensures Serves(w, away, provider, consumer) <==>
            forall tidy, sub, sup :: Compared(away, provider, consumer, tidy, sub, sup) ==> Safe(w, tidy, sub, sup)
  {
    hide Fits, Safe, CoverMember, CoverMembers, CoverVariants, EntryServes, EntryCompares;
    forall i, j | 0 <= i < |consumer.variants| && 0 <= j < |consumer.variants[i].members|
      ensures var kind, entry := consumer.variants[i].kind, consumer.variants[i].members[j];
              && (forall tidy, sub, sup :: EntryCompares(provider, kind, entry, tidy, sub, sup) ==> Fits(w, sub, sup))
              && (EntryServes(w, provider, kind, entry) <==>
                  forall tidy, sub, sup :: EntryCompares(provider, kind, entry, tidy, sub, sup) ==> Safe(w, tidy, sub, sup))
    {
      EntryPairs(w, provider, consumer, i, j);
    }
    assert Compared(away, provider, consumer, StripsInput(away, consumer), consumer.input, provider.input);
    PairsServe(w, away, provider, consumer);
  }

  lemma PairsServe(w: World, away: bool, provider: Description, consumer: Description)
    requires provider.name == consumer.name && provider.scope == consumer.scope && provider.host == consumer.host
    requires forall i, j :: 0 <= i < |consumer.variants| && 0 <= j < |consumer.variants[i].members| ==>
      (EntryServes(w, provider, consumer.variants[i].kind, consumer.variants[i].members[j]) <==>
       forall tidy, sub, sup :: EntryCompares(provider, consumer.variants[i].kind, consumer.variants[i].members[j], tidy, sub, sup) ==>
         Safe(w, tidy, sub, sup))
    ensures Serves(w, away, provider, consumer) <==>
            forall tidy, sub, sup :: Compared(away, provider, consumer, tidy, sub, sup) ==> Safe(w, tidy, sub, sup)
  {
    hide Safe, EntryServes, EntryCompares;
    assert Compared(away, provider, consumer, StripsInput(away, consumer), consumer.input, provider.input);
    if forall tidy, sub, sup :: Compared(away, provider, consumer, tidy, sub, sup) ==> Safe(w, tidy, sub, sup) {
      forall i, j | 0 <= i < |consumer.variants| && 0 <= j < |consumer.variants[i].members|
        ensures EntryServes(w, provider, consumer.variants[i].kind, consumer.variants[i].members[j])
      {
        forall tidy, sub, sup | EntryCompares(provider, consumer.variants[i].kind, consumer.variants[i].members[j], tidy, sub, sup)
          ensures Safe(w, tidy, sub, sup)
        {
          assert Compared(away, provider, consumer, tidy, sub, sup);
        }
      }
    }
  }

  /** The pair is written as TypeBox writes schemas, and records, and open objects not stripped, fit the objects they meet. */
  ghost predicate Comparable(w: World, tidy: bool, sub: Schema, sup: Schema) {
    Plain(sub) && Plain(sup) && Clear(w, tidy, sub, sup)
  }

  ghost predicate AllComparable(w: World, away: bool, provider: Description, consumer: Description) {
    forall tidy, sub, sup :: Compared(away, provider, consumer, tidy, sub, sup) ==> Comparable(w, tidy, sub, sup)
  }

  /** Covered: every call, result and state value that one side may send, the other accepts. */
  lemma CoverageSound(w: World, away: bool, provider: Description, consumer: Description)
    requires Coverage(w, provider, consumer).None? && AllComparable(w, away, provider, consumer)
    ensures Serves(w, away, provider, consumer)
  {
    CoveredPairs(w, away, provider, consumer);
    hide Fits, Clear, Plain, Conforms, Compared, Coverage, Serves;
    forall tidy, sub, sup | Compared(away, provider, consumer, tidy, sub, sup) ensures Safe(w, tidy, sub, sup) {
      forall v | Conforms(w, tidy, sub, v) ensures Conforms(w, false, sup, v) { FitsSound(w, tidy, sub, sup, v); }
    }
  }

  /**
   Exactly when coverage can be relied on, for contracts of scalars, literals, arrays, records and objects: the consumer
   is served if and only if in every pair that meets the records, and of results and state the open objects, agree with
   the objects they stand for.
   */
  lemma CoverageExact(w: World, away: bool, provider: Description, consumer: Description)
    requires Coverage(w, provider, consumer).None?
    requires forall tidy, sub, sup :: Compared(away, provider, consumer, tidy, sub, sup) ==> Sent(sub) && Simple(sup)
    ensures Serves(w, away, provider, consumer) <==>
            forall tidy, sub, sup :: Compared(away, provider, consumer, tidy, sub, sup) ==> Agree(w, tidy, sub, sup)
  {
    CoveredPairs(w, away, provider, consumer);
    hide Fits, Sent, Simple, Agree, Safe, Compared, Coverage, Serves;
    forall tidy, sub, sup | Compared(away, provider, consumer, tidy, sub, sup)
      ensures Safe(w, tidy, sub, sup) <==> Agree(w, tidy, sub, sup)
    {
      FitsIff(w, tidy, sub, sup);
    }
  }

  lemma SelfSafe(w: World, s: Schema)
    ensures forall tidy :: Safe(w, tidy, s, s)
  {
    hide Conforms;
    forall v | Conforms(w, true, s, v) ensures Conforms(w, false, s, v) { TidyConforms(w, s, v); }
  }

  /** A remote contract of one method without arguments. */
  function Getter(input: Schema, result: Schema): Description {
    Description("T", RemoteScope, 1, Obj(map["name" := Str("host")]), input,
                [Variant("main", [Entry("get", Method(None, Some(result)))])])
  }

  /**
   The provider's result is an open object, the consumer's lists one optional number: the provider covers it, and may
   return a text under that name, which its own check lets through.
   */
  lemma OpenResultUnserved(w: World, away: bool, name: string)
    ensures var provider, consumer := Getter(ANY, Blank()), Getter(ANY, Optional(name, Number()));
            Coverage(w, provider, consumer).None? && !Serves(w, away, provider, consumer)
  {
    var provider, consumer := Getter(ANY, Blank()), Getter(ANY, Optional(name, Number()));
    ExtraFitsUnchecked(w, name);
    hide Conforms, Blank, Optional;
    assert !Safe(w, false, Blank(), Optional(name, Number()));
    assert Fits(w, ANY, ANY);
    hide Fits;
    GetterCovered(w, provider, consumer);
    assert !EntryServes(w, provider, consumer.variants[0].kind, consumer.variants[0].members[0]);
  }

  /** The same of an input: a consumer on another host is served, one on the provider's host is not. */
  lemma OpenInputUnserved(w: World, name: string)
    ensures var provider, consumer := Getter(Optional(name, Number()), ANY), Getter(Blank(), ANY);
            && Coverage(w, provider, consumer).None?
            && Serves(w, true, provider, consumer) && !Serves(w, false, provider, consumer)
  {
    var provider, consumer := Getter(Optional(name, Number()), ANY), Getter(Blank(), ANY);
    ExtraFitsUnchecked(w, name);
    assert Fits(w, ANY, ANY);
    hide Conforms, Blank, Optional, Fits, Clear, Plain;
    GetterCovered(w, provider, consumer);
    assert Safe(w, true, Blank(), Optional(name, Number())) by {
      forall v | Conforms(w, true, Blank(), v) ensures Conforms(w, false, Optional(name, Number()), v) {
        FitsSound(w, true, Blank(), Optional(name, Number()), v);
      }
    }
    SelfSafe(w, ANY);
    hide Safe;
    assert EntryServes(w, provider, consumer.variants[0].kind, consumer.variants[0].members[0]);
  }

  lemma GetterCovered(w: World, provider: Description, consumer: Description)
    requires exists offered, wanted :: Fits(w, offered, wanted)
               && provider == Getter(provider.input, offered) && consumer == Getter(consumer.input, wanted)
    requires Fits(w, consumer.input, provider.input)
    ensures Coverage(w, provider, consumer).None?
  {
    hide Fits;
    var a, b := provider.variants[0].members, consumer.variants[0].members;
    assert MemberOf(a, b[0].name) == Some(a[0].member);
    assert CoverMembers(w, a, b[1..], "main").None?;
    assert CoverMembers(w, a, b, "main").None?;
    assert VariantOf(provider.variants, "main") == Some(provider.variants[0]);
    assert CoverVariants(w, provider.variants, consumer.variants[1..]).None?;
  }

  // ---------------------------------------------------------------- binding

  datatype Binding = Direct | Adapted(version: nat) | Mismatch

  /** Equal descriptions and covered ones of one version bind directly; another version needs its adapter. */
  function Bind(w: World, fingerprint: Description -> string, provider: Description, accepts: set<nat>, consumer: Description): Binding {
    if fingerprint(provider) == fingerprint(consumer) then Direct
    else if provider.host != consumer.host then Mismatch
    else if provider.version == consumer.version then (if Coverage(w, provider, consumer).None? then Direct else Mismatch)
    else if consumer.version in accepts then Adapted(consumer.version)
    else Mismatch
  }

  predicate Distinct(d: Description) {
    && (forall i, j :: 0 <= i < j < |d.variants| ==> d.variants[i].kind != d.variants[j].kind)
    && (forall i, j, k :: 0 <= i < |d.variants| && 0 <= j < k < |d.variants[i].members| ==>
          d.variants[i].members[j].name != d.variants[i].members[k].name)
  }

  lemma {:induction false} VariantAt(list: seq<Variant>, i: nat)
    requires i < |list| && forall a, b :: 0 <= a < b < |list| ==> list[a].kind != list[b].kind
    ensures VariantOf(list, list[i].kind) == Some(list[i])
    decreases |list|
  {
    if i > 0 {
      assert list[0].kind != list[i].kind;
      assert forall a, b :: 0 <= a < b < |list[1..]| ==> list[1..][a] == list[a + 1] && list[1..][b] == list[b + 1];
      VariantAt(list[1..], i - 1);
    }
  }

  lemma {:induction false} MemberAt(list: seq<Entry>, i: nat)
    requires i < |list| && forall a, b :: 0 <= a < b < |list| ==> list[a].name != list[b].name
    ensures MemberOf(list, list[i].name) == Some(list[i].member)
    decreases |list|
  {
    if i > 0 {
      assert list[0].name != list[i].name;
      assert forall a, b :: 0 <= a < b < |list[1..]| ==> list[1..][a] == list[a + 1] && list[1..][b] == list[b + 1];
      MemberAt(list[1..], i - 1);
    }
  }

  /** A description serves itself. */
  lemma ServesItself(w: World, away: bool, d: Description)
    requires Distinct(d)
    ensures Serves(w, away, d, d)
  {
    hide Safe;
    SelfSafe(w, d.input);
    forall i, j | 0 <= i < |d.variants| && 0 <= j < |d.variants[i].members|
      ensures EntryServes(w, d, d.variants[i].kind, d.variants[i].members[j])
    {
      VariantAt(d.variants, i);
      MemberAt(d.variants[i].members, j);
      match d.variants[i].members[j].member
      case Method(args, result) =>
        if args.Some? { SelfSafe(w, args.value); }
        if result.Some? { SelfSafe(w, result.value); }
      case State(schema) => SelfSafe(w, schema);
      case Opaque(_) =>
    }
  }

  /** A direct binding serves the consumer, as long as fingerprints tell descriptions apart. */
  lemma BindSound(w: World, away: bool, fingerprint: Description -> string, provider: Description, accepts: set<nat>,
                  consumer: Description)
    requires Bind(w, fingerprint, provider, accepts, consumer).Direct?
    requires fingerprint(provider) == fingerprint(consumer) ==> provider == consumer
    requires Distinct(provider) && AllComparable(w, away, provider, consumer)
    ensures Serves(w, away, provider, consumer)
  {
    if provider == consumer { ServesItself(w, away, provider); } else { CoverageSound(w, away, provider, consumer); }
  }
}
