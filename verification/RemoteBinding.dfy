/** The consumer's binding as an object whose fields change in place, proved against the functions of `Remote`. */
module RemoteObject {
  import opened DeltaCodec
  import opened Wire
  import opened Wrappers
  import opened Remote

  /** The members once all arrived values but those under `left` were taken over. */
  function Taken(members: map<Name, Replica>, values: map<Name, Replica>, wanted: set<Name>, left: set<Name>): map<Name, Replica> {
    members + map n | n in values && n !in left && n in wanted :: values[n]
  }

  lemma TakenEnds(members: map<Name, Replica>, values: map<Name, Replica>, wanted: set<Name>)
    ensures Taken(members, values, wanted, values.Keys) == members
    ensures Taken(members, values, wanted, {}) == members + map n | n in values && n in wanted :: values[n]
  {
    forall m ensures m in Taken(members, values, wanted, values.Keys) <==> m in members {}
  }

  lemma TakenStep(members: map<Name, Replica>, values: map<Name, Replica>, wanted: set<Name>, left: set<Name>, n: Name)
    requires n in left && n in values
    ensures Taken(members, values, wanted, left - {n})
         == if n in wanted then Taken(members, values, wanted, left)[n := values[n]] else Taken(members, values, wanted, left)
  {
    var a, b := Taken(members, values, wanted, left), Taken(members, values, wanted, left - {n});
    forall m ensures (m in b <==> m in a || (m == n && n in wanted)) && (m in b && (m != n || n !in wanted) ==> b[m] == a[m]) {}
  }

  class RemoteBinding {
    const contract: Contract
    var status: Status
    var shape: Option<Shape>
    var hydrated: bool
    var stateOn: bool
    /** The views, and whether each wants state. */
    var views: map<nat, bool>
    var members: map<Name, Replica>
    var pending: Option<Pending>

    function View(): Binding
      reads this
    {
      Binding(contract, status, shape, hydrated, stateOn, views, members, pending)
    }

    constructor (contract: Contract)
      ensures this.contract == contract && Consistent(View())
      ensures View() == Binding(contract, Loading, None, false, false, map[], map[], None)
    {
      this.contract, status, shape, hydrated, stateOn := contract, Loading, None, false, false;
      views, members, pending := map[], map[], None;
    }

    /** How many views want state. */
    method StateViewCount() returns (count: nat)
      ensures count > 0 <==> StateViews(View())
    {
      count := 0;
      var left := views.Keys;
      while left != {}
        invariant left <= views.Keys
        invariant count > 0 <==> exists v :: v in views && v !in left && views[v]
        decreases |left|
      {
        var v :| v in left;
        if views[v] { count := count + 1; }
        left := left - {v};
      }
    }

    /** Compares the views' wish with what the provider was told, and tells it the difference. */
    method SyncState() returns (told: Option<bool>)
      modifies this
      ensures View() == Remote.SyncState(old(View()))
      ensures told == if stateOn == old(stateOn) then None else Some(stateOn)
    {
      told := None;
      if status.Ended? || views == map[] { return; }
      var count := StateViewCount();
      if (count > 0) == stateOn { return; }
      stateOn := count > 0;
      if count == 0 {
        hydrated := false;
        members := map[];
        if pending.Some? { pending := Some(pending.value.(missing := {})); }
      }
      told := Some(stateOn);
    }

    method AddView(view: nat, wantsState: bool) returns (told: Option<bool>)
      modifies this
      ensures View() == ViewAdded(old(View()), view, wantsState)
      ensures told == if stateOn == old(stateOn) then None else Some(stateOn)
    {
      if view !in views { views := views[view := wantsState]; }
      told := SyncState();
    }

    method RemoveView(view: nat) returns (told: Option<bool>)
      modifies this
      ensures View() == ViewRemoved(old(View()), view)
      ensures told == if stateOn == old(stateOn) then None else Some(stateOn)
    {
      told := None;
      if view !in views { return; }
      views := views - {view};
      if views == map[] { return; }
      told := SyncState();
    }

    /** In place, `Remote.Shaped`: snapshots owed from an earlier unit stay owed. */
    method Shaped(next: Shape, listed: seq<Name>)
      modifies this
      ensures View() == Remote.Shaped(old(View()), next, listed)
    {
      if status.Ended? { return; }
      var wanted := Wanted(contract, next);
      var missing, i := if pending.Some? then pending.value.missing else {}, 0;
      while i < |listed|
        invariant 0 <= i <= |listed| && View() == old(View())
        invariant missing == (set n | n in listed[..i]) + (if pending.Some? then pending.value.missing else {})
      {
        assert listed[..i + 1] == listed[..i] + [listed[i]];
        missing := missing + {listed[i]};
        i := i + 1;
      }
      assert listed[..i] == listed;
      missing := if stateOn then missing * wanted else {};
      pending := Some(Pending(next, missing, if pending.Some? then pending.value.values else map[]));
      if missing == {} { Apply(); }
    }

    /** A snapshot or reset of member `m`. */
    method Full(m: Name, value: Value)
      modifies this
      ensures View() == Arrived(old(View()), m, value)
    {
      if status.Ended? { return; }
      if pending.Some? && (m in pending.value.missing || m in pending.value.values) {
        var p := pending.value;
        pending := Some(p.(values := p.values[m := Fresh(value)], missing := p.missing - {m}));
        if pending.value.missing == {} { Apply(); }
        return;
      }
      if shape.None? || m !in VariantState(contract, shape.value.variant) { return; }
      members := members[m := Fresh(value)];
    }

    /** Ops of member `m`: for the replica that waits for its shape, else for the current one. */
    method Ops(m: Name, wire: seq<WireOp>)
      modifies this
      ensures View() == Edited(old(View()), m, wire)
    {
      if status.Ended? { return; }
      if pending.Some? && m in pending.value.values {
        var p := pending.value;
        pending := Some(p.(values := p.values[m := Feed(p.values[m], wire)]));
      } else if m in members {
        members := members[m := Feed(members[m], wire)];
      }
    }

    /** The pending shape takes effect, with the values that came for it over the ones it keeps. */
    method Apply()
      requires pending.Some?
      modifies this
      ensures View() == Applied(old(View()))
    {
      var p := pending.value;
      pending := None;
      shape := Some(p.shape);
      var wanted := Wanted(contract, p.shape);
      KeepOnly(wanted);
      TakeOver(p.values, wanted);
      hydrated := stateOn && wanted <= members.Keys;
      status := Live;
    }

    method KeepOnly(wanted: set<Name>)
      modifies this`members
      ensures members == map n | n in old(members) && n in wanted :: old(members)[n]
    {
      var left := members.Keys;
      while left != {}
        invariant left <= old(members).Keys
        invariant members == map n | n in old(members) && (n in left || n in wanted) :: old(members)[n]
        decreases |left|
      {
        var n :| n in left;
        if n !in wanted { members := members - {n}; }
        left := left - {n};
      }
    }

    method TakeOver(values: map<Name, Replica>, wanted: set<Name>)
      modifies this`members
      ensures members == old(members) + map n | n in values && n in wanted :: values[n]
    {
      var left := values.Keys;
      TakenEnds(members, values, wanted);
      hide Taken;
      while left != {}
        invariant left <= values.Keys && members == Taken(old(members), values, wanted, left)
        decreases |left|
      {
        var n :| n in left;
        TakenStep(old(members), values, wanted, left, n);
        if n in wanted { members := members[n := values[n]]; }
        left := left - {n};
      }
    }

    /** The link went down: the values stay readable until the next hold. */
    method Detach()
      modifies this
      ensures View() == Detached(old(View()))
    {
      if status.Ended? { return; }
      pending := None;
      status := Loading;
    }

    /** A new hold says what the views want. */
    method Bind()
      modifies this
      ensures View() == Bound(old(View()))
    {
      if views != map[] {
        var count := StateViewCount();
        stateOn := count > 0;
      }
    }

    /** A view's read, or nothing. */
    method Read(m: Name) returns (value: Option<Value>)
      requires Consistent(View())
      ensures value == ReadOf(View(), m)
      ensures !status.Ended? && hydrated && m in Wanted(contract, shape.value) ==> value.Some?
    {
      if status.Ended? || !hydrated { return None; }
      if shape.None? || m !in VariantState(contract, shape.value.variant) { return None; }
      value := if m in members then Some(members[m].value) else None;
    }
  }
}
