/** The cells and derivations of an object as they change in place, proved against `Cells`. */
module CellObjects {
  import opened Schemas
  import opened Wrappers
  import opened Cells
  import opened Digraphs

  // ---------------------------------------------------------------- dependents

  ghost predicate DependsOn(g: Graph, x: nat, d: nat) {
    Digraphs.Reaches(g.dependents, x, d)
  }

  /** What depends on a source is attached and was created later. */
  lemma {:induction false} DependsLater(g: Graph, x: nat, path: seq<nat>, d: nat)
    requires Ordered(g.nodes) && Linked(g) && Leads(g.dependents, x, path, d)
    ensures IsAttached(g.nodes, d) && x < d
    decreases |path|
  {
    assert IsAttached(g.nodes, path[0]) && x in g.nodes[path[0]].sources;
    if |path| > 1 { DependsLater(g, path[0], path[1..], d); }
  }

  lemma AllDependLater(g: Graph, x: nat)
    requires Ordered(g.nodes) && Linked(g)
    ensures forall d :: DependsOn(g, x, d) ==> IsAttached(g.nodes, d) && x < d
  {
    forall d | DependsOn(g, x, d) ensures IsAttached(g.nodes, d) && x < d {
      var path :| Leads(g.dependents, x, path, d);
      DependsLater(g, x, path, d);
    }
  }

  // ---------------------------------------------------------------- creation order

  ghost predicate IsLeast(m: nat, s: set<nat>) {
    m in s && forall y :: y in s ==> m <= y
  }

  lemma {:induction false} LeastOf(s: set<nat>) returns (m: nat)
    requires s != {}
    ensures IsLeast(m, s)
    decreases |s|
  {
    m :| m in s;
    var rest := s - {m};
    if rest != {} {
      var k := LeastOf(rest);
      LeastWith(s, m, k);
      if k < m { m := k; }
    } else {
      assert s == {m};
    }
  }

  lemma LeastWith(s: set<nat>, x: nat, k: nat)
    requires x in s && IsLeast(k, s - {x})
    ensures IsLeast(if k < x then k else x, s)
  {
    forall y | y in s ensures (if k < x then k else x) <= y {
      if y != x { assert y in s - {x}; }
    }
  }

  lemma {:induction false} LeastExists(s: set<nat>)
    requires s != {}
    ensures exists m :: IsLeast(m, s)
  {
    var m := LeastOf(s);
  }

  function Least(s: set<nat>): (m: nat)
    requires s != {}
    ensures IsLeast(m, s)
  {
    LeastExists(s);
    var m :| m in s && forall y :: y in s ==> m <= y;
    m
  }

  lemma IncreasingCons(m: nat, rest: seq<nat>)
    requires Increasing(rest) && forall x :: x in rest ==> m < x
    ensures Increasing([m] + rest)
    ensures forall x :: x in [m] + rest <==> x == m || x in rest
  {
    assert forall j :: 0 <= j < |rest| ==> rest[j] in rest;
  }

  /** The derivations by creation number. */
  function ByCreation(s: set<nat>): (order: seq<nat>)
    ensures forall x :: x in order <==> x in s
    ensures Increasing(order)
    decreases |s|
  {
    if s == {} then []
    else
      var m := Least(s);
      var rest := ByCreation(s - {m});
      IncreasingCons(m, rest);
      [m] + rest
  }

  lemma SomeElement(b: seq<nat>)
    ensures b == [] || exists x :: x in b
  {
    if b != [] { assert b[0] in b; }
  }

  /** A set has one increasing order. */
  lemma {:induction false} IncreasingUnique(a: seq<nat>, b: seq<nat>)
    requires Increasing(a) && Increasing(b) && forall x :: x in a <==> x in b
    ensures a == b
    decreases |a|
  {
    if a == [] {
      SomeElement(b);
    } else {
      assert a[0] in b && b != [] && b[0] in a;
      FirstOf(a);
      FirstOf(b);
      assert a[0] == b[0];
      IncreasingUnique(a[1..], b[1..]);
      assert a == [a[0]] + a[1..] && b == [b[0]] + b[1..];
    }
  }

  /** `order` is what a write of `x` recomputes. */
  ghost predicate IsOrder(g: Graph, x: nat, order: seq<nat>) {
    Increasing(order) && Derivations(g.nodes, order) && forall d :: d in order <==> DependsOn(g, x, d)
  }

  /** No function of what depends on `x` throws over the candidates, and no value is refused. */
  ghost predicate Succeeds(g: Graph, x: nat, value: Json, validate: bool) {
    Ordered(g.nodes) && exists order :: IsOrder(g, x, order) && Recompute(g.nodes, order, map[x := value], validate).Some?
  }

  lemma SucceedsWith(g: Graph, x: nat, value: Json, validate: bool, order: seq<nat>)
    requires Ordered(g.nodes) && IsOrder(g, x, order)
    ensures Succeeds(g, x, value, validate) <==> Recompute(g.nodes, order, map[x := value], validate).Some?
  {
    forall other | IsOrder(g, x, other) ensures other == order { IncreasingUnique(other, order); }
  }

  // ---------------------------------------------------------------- notifications

  /** A change of a source that observers will hear of. */
  datatype Event = Event(source: nat, value: Json)

  /** Derivations whose value stayed the same publish nothing. */
  function Changes(nodes: map<nat, Node>, values: map<nat, Json>, order: seq<nat>): seq<Event>
    decreases |order|
  {
    if order == [] then []
    else
      var rest := Changes(nodes, values, order[1..]);
      if order[0] in nodes && order[0] in values && nodes[order[0]].value != values[order[0]]
      then [Event(order[0], values[order[0]])] + rest
      else rest
  }

  lemma {:induction false} ChangesAppend(nodes: map<nat, Node>, values: map<nat, Json>, order: seq<nat>, d: nat)
    ensures Changes(nodes, values, order + [d])
         == Changes(nodes, values, order)
            + if d in nodes && d in values && nodes[d].value != values[d] then [Event(d, values[d])] else []
    decreases |order|
  {
    if order == [] {
      assert ([] + [d])[1..] == [];
    } else {
      assert (order + [d])[0] == order[0] && (order + [d])[1..] == order[1..] + [d];
      ChangesAppend(nodes, values, order[1..], d);
    }
  }

  lemma RecomputeStep(nodes: map<nat, Node>, order: seq<nat>, i: nat, values: map<nat, Json>, validate: bool)
    requires Ordered(nodes) && i < |order| && Derivations(nodes, order[i..])
    ensures Derivations(nodes, order[i + 1..]) && order[i] in nodes && nodes[order[i]].DerivedNode?
    ensures var next := Compute(nodes, values, order[i]);
            Recompute(nodes, order[i..], values, validate)
            == if next.None? || (validate && !nodes[order[i]].accepts(next.value)) then None
               else Recompute(nodes, order[i + 1..], values[order[i] := next.value], validate)
  {
    var tail := order[i..];
    assert tail[0] == order[i] && tail[1..] == order[i + 1..];
    assert forall k :: 0 <= k < |tail[1..]| ==> tail[1..][k] == tail[k + 1];
  }

  lemma AdoptedValid(g: Graph, stale: set<nat>, x: nat, value: Json, order: seq<nat>, values: map<nat, Json>, validate: bool)
    requires Cells.Valid(g, stale) && Pending(g, x, order) && Derivations(g.nodes, order)
    requires IsAttached(g.nodes, x) ==> Compute(g.nodes, map[], x) == Some(value)
    requires Recompute(g.nodes, order, map[x := value], validate) == Some(values)
    ensures Cells.Valid(Graph(Adopt(g.nodes, values), g.dependents), StillStale(stale, x, order))
    ensures x in g.nodes && x !in order && Increasing(order) && forall d :: d in order ==> d in g.nodes && d in values
    ensures values.Keys == {x} + (set d | d in order) && values[x] == value
  {
    hide StaleOutside, Compute, Linked, Fresh;
    RecomputeKeeps(g.nodes, order, map[x := value], validate);
    AdoptFresh(g, stale, x, value, order, validate);
    hide Cells.Valid, Recompute;
  }

  lemma AdoptedKeys(nodes: map<nat, Node>, order: seq<nat>, x: nat, value: Json, values: map<nat, Json>, validate: bool)
    requires Ordered(nodes) && Derivations(nodes, order) && Increasing(order) && x in nodes && x !in order
    requires Recompute(nodes, order, map[x := value], validate) == Some(values)
    ensures forall d :: d in order ==> d in values
    ensures forall y :: y in values <==> y == x || y in order
    ensures values[x] == value && x in Adopt(nodes, values) && Adopt(nodes, values)[x].value == value
    ensures forall y :: y in nodes && y != x && y !in order ==> Adopt(nodes, values)[y] == nodes[y]
  {
    RecomputeKeeps(nodes, order, map[x := value], validate);
  }

  lemma {:induction false} ChangesAre(nodes: map<nat, Node>, values: map<nat, Json>, order: seq<nat>)
    ensures forall e :: e in Changes(nodes, values, order) ==>
              e.source in order && e.source in nodes && e.source in values && e.value == values[e.source]
    decreases |order|
  {
    if order != [] {
      assert forall x :: x in order[1..] ==> x in order;
      ChangesAre(nodes, values, order[1..]);
    }
  }

  lemma {:induction false} ChangesSame(a: map<nat, Node>, b: map<nat, Node>, values: map<nat, Json>, order: seq<nat>)
    requires forall d :: d in order ==> d in a && d in b && a[d].value == b[d].value
    ensures Changes(a, values, order) == Changes(b, values, order)
    decreases |order|
  {
    if order != [] {
      assert order[0] in order;
      ChangesSame(a, b, values, order[1..]);
    }
  }

  function Installed(nodes: map<nat, Node>, order: seq<nat>, values: map<nat, Json>): map<nat, Node>
    requires forall d :: d in order ==> d in values
  {
    map y | y in nodes :: if y in order then nodes[y].(value := values[y]) else nodes[y]
  }

  lemma InstalledNone(nodes: map<nat, Node>, values: map<nat, Json>)
    ensures Installed(nodes, [], values) == nodes && Changes(nodes, values, []) == []
  {
  }

  lemma InstalledStep(nodes: map<nat, Node>, order: seq<nat>, d: nat, values: map<nat, Json>)
    requires forall e :: e in order ==> e in values
    requires d in nodes && d in values && d !in order
    ensures Installed(nodes, order + [d], values) == Installed(nodes, order, values)[d := nodes[d].(value := values[d])]
    ensures d in Installed(nodes, order, values) && Installed(nodes, order, values)[d] == nodes[d]
  {
    assert forall y :: y in order + [d] <==> y in order || y == d;
  }

  /** The changed source and then the derivations: together everything is adopted. */
  lemma AdoptedInTwo(nodes: map<nat, Node>, x: nat, value: Json, order: seq<nat>, values: map<nat, Json>)
    requires x in nodes && x !in order && forall d :: d in order ==> d in nodes && d in values
    requires values.Keys == {x} + (set d | d in order) && values[x] == value
    ensures Installed(nodes[x := nodes[x].(value := value)], order, values) == Adopt(nodes, values)
    ensures Changes(nodes[x := nodes[x].(value := value)], values, order) == Changes(nodes, values, order)
  {
    ChangesSame(nodes[x := nodes[x].(value := value)], nodes, values, order);
  }

  lemma Adoption(g: Graph, stale: set<nat>, x: nat, value: Json, order: seq<nat>, values: map<nat, Json>, validate: bool)
    requires Cells.Valid(g, stale) && Pending(g, x, order) && Derivations(g.nodes, order)
    requires IsAttached(g.nodes, x) ==> Compute(g.nodes, map[], x) == Some(value)
    requires Recompute(g.nodes, order, map[x := value], validate) == Some(values)
    ensures Cells.Valid(Graph(Adopt(g.nodes, values), g.dependents), StillStale(stale, x, order))
    ensures Adopt(g.nodes, values).Keys == g.nodes.Keys
    ensures x in g.nodes && Increasing(order) && forall d :: d in order ==> d in g.nodes && d in values
    ensures Installed(g.nodes[x := g.nodes[x].(value := value)], order, values) == Adopt(g.nodes, values)
    ensures Changes(g.nodes[x := g.nodes[x].(value := value)], values, order) == Changes(g.nodes, values, order)
  {
    AdoptedValid(g, stale, x, value, order, values, validate);
    hide StaleOutside, Cells.Valid, Recompute, Compute, Changes, Installed;
    AdoptedInTwo(g.nodes, x, value, order, values);
  }

  /** Each source in `sources` gains or loses the follower `d`; outside readables keep their own books. */
  function Following(nodes: map<nat, Node>, dependents: map<nat, set<nat>>, d: nat, sources: seq<nat>, follow: bool)
    : map<nat, set<nat>>
  {
    map x | x in dependents ::
      if x !in sources then dependents[x]
      else if !follow then dependents[x] - {d}
      else if x in nodes && !nodes[x].Outside? then dependents[x] + {d}
      else dependents[x]
  }

  lemma FollowingStep(nodes: map<nat, Node>, dependents: map<nat, set<nat>>, d: nat, sources: seq<nat>, x: nat, follow: bool)
    requires dependents.Keys == nodes.Keys && x in nodes
    ensures var before := Following(nodes, dependents, d, sources, follow);
            Following(nodes, dependents, d, sources + [x], follow)
            == if follow && nodes[x].Outside? then before
               else before[x := if follow then before[x] + {d} else before[x] - {d}]
  {
    var before := Following(nodes, dependents, d, sources, follow);
    var after := Following(nodes, dependents, d, sources + [x], follow);
    assert forall y :: y in sources + [x] <==> y in sources || y == x;
    assert before[x] == dependents[x] || before[x] == dependents[x] + {d} || before[x] == dependents[x] - {d};
    assert after[x] == if follow && nodes[x].Outside? then before[x] else if follow then before[x] + {d} else before[x] - {d};
  }

  class CellGraph {
    var nodes: map<nat, Node>
    var dependents: map<nat, set<nat>>
    var sequence: nat
    ghost var stale: set<nat>
    /** What was handed to the notification queue, in order. */
    var published: seq<Event>

    function View(): Graph
      reads this
    {
      Graph(nodes, dependents)
    }

    ghost predicate Valid()
      reads this
    {
      Cells.Valid(View(), stale) && forall x :: x in nodes ==> x <= sequence
    }

    constructor ()
      ensures Valid() && nodes == map[] && published == [] && stale == {}
    {
      nodes, dependents, sequence, published, stale := map[], map[], 0, [], {};
    }

    /** A new source, numbered after every other. */
    method Add(node: Node) returns (x: nat)
      requires Valid()
      requires node.DerivedNode? ==> !node.attached && forall i :: 0 <= i < |node.sources| ==> node.sources[i] in nodes
      modifies this
      ensures Valid() && x !in old(nodes) && (forall y :: y in old(nodes) ==> y < x)
      ensures nodes == old(nodes)[x := node] && published == old(published) && stale == old(stale)
    {
      hide StaleOutside, Fresh, Linked;
      AddedValid(View(), stale, sequence + 1, node);
      hide Cells.Valid;
      sequence := sequence + 1;
      x := sequence;
      nodes := nodes[x := node];
      dependents := dependents[x := {}];
    }

    /** `d` comes to life: its value is computed and its sources list it. Without a value it stays as it was. */
    method Attach(d: nat) returns (ok: bool)
      requires Valid() && d in nodes && nodes[d].DerivedNode? && !nodes[d].attached && dependents[d] == {}
      modifies this`nodes, this`dependents, this`stale
      ensures Valid() && stale == (if ok then old(stale) - {d} else old(stale))
      ensures (!ok ==> nodes == old(nodes) && dependents == old(dependents))
      ensures ok ==> IsAttached(nodes, d) && View() == Attached(old(View()), d, nodes[d].value)
      ensures ok <==> Compute(old(nodes), map[], d).Some?
    {
      var first := Compute(nodes, map[], d);
      if first.None? { return false; }
      hide StaleOutside, Fresh;
      AttachedValid(View(), stale, d, first.value);
      hide Cells.Valid, Compute, Linked;
      ghost var g := View();
      Follow(d, nodes[d].sources, true);
      nodes := nodes[d := nodes[d].(attached := true, value := first.value)];
      stale := stale - {d};
      assert View() == Attached(g, d, first.value);
      ok := true;
    }

    method Detach(d: nat)
      requires Valid() && d in nodes && nodes[d].DerivedNode?
      modifies this`nodes, this`dependents
      ensures Valid() && View() == Detached(old(View()), d)
    {
      hide StaleOutside, Fresh;
      DetachedValid(View(), stale, d);
      hide Cells.Valid, Linked;
      ghost var g := View();
      Follow(d, nodes[d].sources, false);
      nodes := nodes[d := nodes[d].(attached := false)];
      assert View() == Detached(g, d);
    }

    /** Adds or removes `d` among the dependents of its sources. */
    method Follow(d: nat, sources: seq<nat>, follow: bool)
      requires dependents.Keys == nodes.Keys && forall i :: 0 <= i < |sources| ==> sources[i] in nodes
      modifies this`dependents
      ensures dependents == Following(nodes, old(dependents), d, sources, follow)
    {
      var i := 0;
      while i < |sources|
        invariant 0 <= i <= |sources| && dependents == Following(nodes, old(dependents), d, sources[..i], follow)
      {
        var x := sources[i];
        assert sources[..i + 1] == sources[..i] + [x];
        FollowingStep(nodes, old(dependents), d, sources[..i], x, follow);
        if follow && !nodes[x].Outside? { dependents := dependents[x := dependents[x] + {d}]; }
        if !follow { dependents := dependents[x := dependents[x] - {d}]; }
        i := i + 1;
      }
      assert sources[..i] == sources;
    }

    /** Recomputes and republishes a derivation and what depends on it; an error changes nothing. */
    method Refresh(d: nat) returns (ok: bool)
      requires Valid() && IsAttached(nodes, d)
      modifies this`nodes, this`published, this`stale
      ensures Valid() && nodes.Keys == old(nodes).Keys
      ensures !ok ==> nodes == old(nodes) && published == old(published) && stale == old(stale)
      ensures ok <==> Compute(old(nodes), map[], d).Some?
                      && Succeeds(old(View()), d, Compute(old(nodes), map[], d).value, true)
      ensures ok ==> Compute(old(nodes), map[], d) == Some(nodes[d].value)
      ensures ok ==> forall y :: y in stale <==> y in old(stale) && y != d && !DependsOn(old(View()), d, y)
      ensures forall y :: y in nodes && y != d && !DependsOn(old(View()), d, y) ==> nodes[y] == old(nodes)[y]
      ensures forall y :: IsAttached(nodes, y) <==> IsAttached(old(nodes), y)
      ensures forall y :: y in nodes && !IsAttached(nodes, y) ==> nodes[y] == old(nodes)[y]
      ensures ok ==> stale <= old(stale) - {d}
    {
      var next := Compute(nodes, map[], d);
      if next.None? { return false; }
      var order, candidates := ComputeDependents(d, next.value, true);
      SucceedsWith(View(), d, next.value, true, order);
      hide Succeeds, IsOrder;
      if candidates.None? { return false; }
      AdoptedKeys(nodes, order, d, next.value, candidates.value, true);
      hide Recompute, Compute, Pending, Ordered, Linked, Fresh, DependsOn, Cells.Valid, Derivations, Changes;
      AdoptAll(d, next.value, order, candidates.value, true, nodes[d].value != next.value);
      ok := true;
    }

    /** An outside readable has a new value; its followers hear of it through the queue. */
    method OutsideChanges(x: nat, value: Json)
      requires Valid() && x in nodes && nodes[x].Outside?
      modifies this`nodes, this`stale
      ensures Valid() && nodes == old(nodes)[x := Outside(value)] && stale == old(stale) + Followers(old(nodes), x)
    {
      OutsideValid(View(), stale, x, value);
      stale := stale + Followers(nodes, x);
      nodes := nodes[x := Outside(value)];
    }

    /**
     An outside readable's publication reaches each derivation that follows it, in any order.  Who is stale
     afterwards was stale for another reason or reported an error.
     */
    method OutsidePublishes(x: nat) returns (failed: set<nat>)
      requires Valid() && x in nodes && nodes[x].Outside?
      modifies this`nodes, this`published, this`stale
      ensures Valid() && nodes.Keys == old(nodes).Keys && nodes[x] == old(nodes[x])
      ensures stale <= old(stale) && stale * Followers(old(nodes), x) <= failed <= Followers(old(nodes), x)
    {
      var followers: set<nat> := Followers(nodes, x);
      failed := {};
      hide StaleOutside, Cells.Valid, Compute, DependsOn;
      while followers != {}
        invariant Valid() && nodes.Keys == old(nodes).Keys && nodes[x] == old(nodes[x])
        invariant followers <= Followers(old(nodes), x) && failed <= Followers(old(nodes), x)
        invariant forall d :: d in followers ==> IsAttached(nodes, d)
        invariant stale <= old(stale) && stale * Followers(old(nodes), x) <= failed + followers
        decreases |followers|
      {
        var d :| d in followers;
        ghost var before := stale;
        var ok := Refresh(d);
        StillStaleAmong(before, stale, Followers(old(nodes), x), failed, followers, d, ok);
        followers := followers - {d};
        if !ok { failed := failed + {d}; }
      }
    }

    lemma StillStaleAmong(before: set<nat>, after: set<nat>, all: set<nat>, failed: set<nat>, left: set<nat>, d: nat, ok: bool)
      requires before * all <= failed + left && after <= if ok then before - {d} else before
      ensures after * all <= (if ok then failed else failed + {d}) + (left - {d})
    {
      forall y | y in after * all ensures y in (if ok then failed else failed + {d}) + (left - {d}) {
        assert y in before * all;
      }
    }

    /** Everything that depends on `source`, added to what was found before. */
    method Visit(source: nat, pending: set<nat>) returns (found: set<nat>)
      requires Linked(View()) && source in nodes && pending <= nodes.Keys
      ensures pending <= found <= nodes.Keys && dependents[source] <= found
      ensures forall d :: d in found - pending ==> dependents[d] <= found
      ensures forall d :: d in found - pending ==> DependsOn(View(), source, d)
      decreases nodes.Keys - pending
    {
      found := pending;
      var left := dependents[source];
      while left != {}
        invariant left <= dependents[source] && pending <= found <= nodes.Keys
        invariant dependents[source] - left <= found
        invariant forall d :: d in found - pending ==> dependents[d] <= found
        invariant forall d :: d in found - pending ==> DependsOn(View(), source, d)
        decreases |left|
      {
        var d :| d in left;
        left := left - {d};
        if d !in found {
          assert IsAttached(nodes, d);
          ReachesDirectly(dependents, source, d);
          hide Linked, DependsOn;
          ghost var before := found;
          found := Visit(d, found + {d});
          forall y | y in found - (before + {d}) ensures DependsOn(View(), source, y) {
            ReachesThrough(dependents, source, d, y);
          }
        }
      }
    }

    /** What `changed` reaches, sorted by creation number. */
    method Collect(changed: nat) returns (order: seq<nat>)
      requires Valid() && changed in nodes && !nodes[changed].Outside?
      ensures Pending(View(), changed, order) && Derivations(nodes, order)
      ensures forall d :: d in order <==> DependsOn(View(), changed, d)
    {
      var pending := Visit(changed, {});
      order := ByCreation(pending);
      AllDependLater(View(), changed);
      AllFound(changed, pending);
      assert Derivations(nodes, order) by { assert forall i :: 0 <= i < |order| ==> order[i] in order; }
    }

    /** A dry run of a change: what it would touch, and the values it would give, or none. */
    method ComputeDependents(changed: nat, value: Json, validate: bool)
      returns (order: seq<nat>, candidates: Option<map<nat, Json>>)
      requires Valid() && changed in nodes && !nodes[changed].Outside?
      ensures Pending(View(), changed, order) && Derivations(nodes, order)
      ensures forall d :: d in order <==> DependsOn(View(), changed, d)
      ensures candidates == Recompute(nodes, order, map[changed := value], validate)
    {
      order := Collect(changed);
      candidates := RecomputeAll(order, map[changed := value], validate);
    }

    method RecomputeAll(order: seq<nat>, start: map<nat, Json>, validate: bool) returns (candidates: Option<map<nat, Json>>)
      requires Ordered(nodes) && Derivations(nodes, order)
      ensures candidates == Recompute(nodes, order, start, validate)
    {
      hide Ordered, Compute;
      var values: map<nat, Json>, i := start, 0;
      assert order[0..] == order;
      while i < |order|
        invariant 0 <= i <= |order| && Derivations(nodes, order[i..])
        invariant Recompute(nodes, order, start, validate) == Recompute(nodes, order[i..], values, validate)
      {
        RecomputeStep(nodes, order, i, values, validate);
        var next := Compute(nodes, values, order[i]);
        if next.None? || (validate && !nodes[order[i]].accepts(next.value)) { return None; }
        values := values[order[i] := next.value];
        i := i + 1;
      }
      candidates := Some(values);
    }

    lemma AllFound(x: nat, pending: set<nat>)
      requires Linked(View()) && x in nodes && dependents[x] <= pending <= nodes.Keys
      requires forall d :: d in pending ==> dependents[d] <= pending
      ensures forall d :: DependsOn(View(), x, d) ==> d in pending
    {
      ReachesInside(dependents, x, pending);
    }

    /** A derivation takes its new value, and publishes it if it differs. */
    method Install(d: nat, next: Json)
      requires d in nodes
      modifies this`nodes, this`published
      ensures nodes == old(nodes)[d := old(nodes)[d].(value := next)]
      ensures published == old(published) + if old(nodes)[d].value != next then [Event(d, next)] else []
    {
      if nodes[d].value != next { published := published + [Event(d, next)]; }
      nodes := nodes[d := nodes[d].(value := next)];
    }

    /** Adopts the candidates: the changed source is in place, the derivations follow in creation order. */
    method InstallAll(order: seq<nat>, values: map<nat, Json>)
      requires Increasing(order) && forall d :: d in order ==> d in nodes && d in values
      modifies this`nodes, this`published
      ensures nodes == Installed(old(nodes), order, values)
      ensures published == old(published) + Changes(old(nodes), values, order)
    {
      var i := 0;
      hide Changes, Installed;
      InstalledNone(nodes, values);
      assert order[..0] == [];
      while i < |order|
        invariant 0 <= i <= |order|
        invariant forall d :: d in order[..i] ==> d in order
        invariant nodes == Installed(old(nodes), order[..i], values)
        invariant published == old(published) + Changes(old(nodes), values, order[..i])
      {
        var d := order[i];
        assert d in order && d !in order[..i];
        assert order[..i + 1] == order[..i] + [d];
        ChangesAppend(old(nodes), values, order[..i], d);
        InstalledStep(old(nodes), order[..i], d, values);
        Install(d, values[d]);
        i := i + 1;
      }
      assert order[..i] == order;
    }

    /**
     A cell gets a new value, and everything that depends on it follows, or nothing changes.  `noOps`: the
     tracker found nothing changed.
     */
    method Write(x: nat, value: Json, reset: bool, validate: bool, noOps: bool) returns (ok: bool)
      requires Valid() && x in nodes && nodes[x].CellNode? && (noOps ==> value == nodes[x].value)
      modifies this`nodes, this`published, this`stale
      ensures Valid() && nodes.Keys == old(nodes).Keys
      ensures !ok ==> nodes == old(nodes) && published == old(published) && stale == old(stale)
      ensures ok <==> (noOps && !reset)
                      || ((validate ==> old(nodes)[x].accepts(value)) && Succeeds(old(View()), x, value, validate))
      ensures ok ==> nodes[x].value == value && stale <= old(stale)
      ensures ok && (!noOps || reset) ==> forall y :: y in stale ==> !DependsOn(old(View()), x, y)
      ensures ok ==> forall y :: y in nodes && y != x && !DependsOn(old(View()), x, y) ==> nodes[y] == old(nodes)[y]
      ensures ok ==> old(published) <= published && forall i :: |old(published)| <= i < |published| ==>
                published[i].source in nodes && nodes[published[i].source].value == published[i].value
      ensures ok && (!noOps || reset) ==> |published| > |old(published)| && published[|old(published)|] == Event(x, value)
    {
      if noOps && !reset { return true; }
      ghost var values, order;
      ok, order, values := Publish(x, value, validate);
      if ok {
        hide StaleOutside, Cells.Valid, DependsOn, Changes, Succeeds;
        PublishedAre(old(nodes), nodes, x, value, values, order, old(published));
      }
    }

    /** The transaction behind a write: the dry run first, and only if it succeeds the new values and their events. */
    method Publish(x: nat, value: Json, validate: bool) returns (ok: bool, ghost order: seq<nat>, ghost values: map<nat, Json>)
      requires Valid() && x in nodes && nodes[x].CellNode?
      modifies this`nodes, this`published, this`stale
      ensures Valid() && (!ok ==> nodes == old(nodes) && published == old(published) && stale == old(stale))
      ensures ok <==> (validate ==> old(nodes)[x].accepts(value)) && Succeeds(old(View()), x, value, validate)
      ensures ok ==> stale == StillStale(old(stale), x, order)
      ensures ok ==> nodes == Adopt(old(nodes), values)
                     && published == old(published) + [Event(x, value)] + Changes(old(nodes), values, order)
      ensures ok ==> (forall y :: y in values <==> y == x || y in order) && values[x] == value
      ensures ok ==> forall d :: d in order <==> DependsOn(old(View()), x, d)
    {
      order, values := [], map[];
      if validate && !nodes[x].accepts(value) { return false, order, values; }
      var derivations, candidates := ComputeDependents(x, value, validate);
      order := derivations;
      SucceedsWith(View(), x, value, validate, order);
      hide Succeeds, IsOrder;
      if candidates.None? { return false, order, values; }
      values := candidates.value;
      AdoptedKeys(nodes, order, x, value, values, validate);
      assert !IsAttached(nodes, x);
      hide StaleOutside, Cells.Valid, Recompute, Compute, Pending, DependsOn, Ordered, Linked, Fresh, IsAttached, Derivations, Changes, Adopt;
      AdoptAll(x, value, derivations, candidates.value, validate, true);
      ok := true;
    }

    /** What was published is what was adopted. */
    lemma PublishedAre(before: map<nat, Node>, after: map<nat, Node>, x: nat, value: Json, values: map<nat, Json>,
                       order: seq<nat>, queue: seq<Event>)
      requires after == Adopt(before, values) && x in before && x in values && values[x] == value
      requires forall d :: d in order ==> d in values
      ensures var all := queue + [Event(x, value)] + Changes(before, values, order);
              && queue <= all && all[|queue|] == Event(x, value)
              && forall i :: |queue| <= i < |all| ==>
                   all[i].source in after && after[all[i].source].value == all[i].value
    {
      ChangesAre(before, values, order);
      var changes := Changes(before, values, order);
      var all := queue + [Event(x, value)] + changes;
      forall i | |queue| <= i < |all| ensures all[i].source in after && after[all[i].source].value == all[i].value {
        if i > |queue| { assert all[i] == changes[i - |queue| - 1] && all[i] in changes; }
      }
    }

    /** The changed source first, then everything that depends on it, in creation order. */
    method AdoptAll(x: nat, value: Json, order: seq<nat>, values: map<nat, Json>, ghost validate: bool, publish: bool)
      requires Valid() && Pending(View(), x, order) && Derivations(nodes, order)
      requires IsAttached(nodes, x) ==> Compute(nodes, map[], x) == Some(value)
      requires Recompute(nodes, order, map[x := value], validate) == Some(values)
      modifies this`nodes, this`published, this`stale
      ensures Valid() && nodes == Adopt(old(nodes), values) && stale == StillStale(old(stale), x, order)
      ensures published == old(published) + (if publish then [Event(x, value)] else []) + Changes(old(nodes), values, order)
    {
      hide StaleOutside, Fresh, Linked, Compute;
      Adoption(View(), stale, x, value, order, values, validate);
      hide Cells.Valid, Recompute, Ordered, Pending, IsAttached, Derivations;
      hide Changes, Installed, Adopt, Increasing;
      ghost var first := if publish then [Event(x, value)] else [];
      nodes := nodes[x := nodes[x].(value := value)];
      if publish { published := published + [Event(x, value)]; }
      assert published == old(published) + first;
      InstallAll(order, values);
      stale := StillStale(stale, x, order);
      assert View() == Graph(Adopt(old(nodes), values), old(dependents));
    }
  }
}
