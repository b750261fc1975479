/**
 State cells and derivations: a write recomputes every transitive dependent over the candidate values, in creation
 order, and then adopts all of them or none.
 */
module Cells {
  import opened Schemas
  import opened Wrappers

  /**
   A source, named by its creation number.  `accepts`: the validation of a write; a derivation's function may
   throw (`None`).  An outside readable belongs to another object: it publishes by itself.
   */
  datatype Node =
    | CellNode(value: Json, accepts: Json -> bool)
    | DerivedNode(value: Json, accepts: Json -> bool, sources: seq<nat>, fn: seq<Json> -> Option<Json>, attached: bool)
    | Outside(value: Json)

  /** `dependents`: the attached derivations over each cell and derivation. */
  datatype Graph = Graph(nodes: map<nat, Node>, dependents: map<nat, set<nat>>)

  predicate IsAttached(nodes: map<nat, Node>, d: nat) {
    d in nodes && nodes[d].DerivedNode? && nodes[d].attached
  }

  /** A derivation is created after its sources: creation order is a topological order. */
  predicate Ordered(nodes: map<nat, Node>) {
    forall d, i :: d in nodes && nodes[d].DerivedNode? && 0 <= i < |nodes[d].sources| ==>
      nodes[d].sources[i] in nodes && nodes[d].sources[i] < d
  }

  ghost predicate Linked(g: Graph) {
    && g.dependents.Keys == g.nodes.Keys
    && forall x, d :: x in g.nodes ==>
         (d in g.dependents[x] <==> IsAttached(g.nodes, d) && x in g.nodes[d].sources && !g.nodes[x].Outside?)
  }

  function Read(nodes: map<nat, Node>, values: map<nat, Json>, x: nat): Json
    requires x in nodes
  {
    if x in values then values[x] else nodes[x].value
  }

  function Inputs(nodes: map<nat, Node>, values: map<nat, Json>, d: nat): seq<Json>
    requires Ordered(nodes) && d in nodes && nodes[d].DerivedNode?
  {
    seq(|nodes[d].sources|, i requires 0 <= i < |nodes[d].sources| => Read(nodes, values, nodes[d].sources[i]))
  }

  /** What the derivation gives over `values`, and elsewhere over the adopted ones. */
  function Compute(nodes: map<nat, Node>, values: map<nat, Json>, d: nat): Option<Json>
    requires Ordered(nodes) && d in nodes && nodes[d].DerivedNode?
  {
    nodes[d].fn(Inputs(nodes, values, d))
  }

  /**
   Every attached derivation is its function of the values its sources have now, but for the stale ones: an
   outside readable they follow has changed and they have not recomputed without an error since.
   */
  ghost predicate Fresh(nodes: map<nat, Node>, stale: set<nat>)
    requires Ordered(nodes)
  {
    forall d :: IsAttached(nodes, d) && d !in stale ==> Compute(nodes, map[], d) == Some(nodes[d].value)
  }

  predicate FollowsOutside(nodes: map<nat, Node>, d: nat) {
    && d in nodes && nodes[d].DerivedNode?
    && exists x :: x in nodes[d].sources && x in nodes && nodes[x].Outside?
  }

  /** Only who follows an outside readable can be stale. */
  ghost predicate StaleOutside(nodes: map<nat, Node>, stale: set<nat>) {
    forall d :: d in stale ==> FollowsOutside(nodes, d)
  }

  ghost predicate Valid(g: Graph, stale: set<nat>) {
    Ordered(g.nodes) && Linked(g) && Fresh(g.nodes, stale) && StaleOutside(g.nodes, stale)
  }

  /** Derivations over cells and derivations of the object are fresh. */
  lemma InsideFresh(g: Graph, stale: set<nat>, d: nat)
    requires Valid(g, stale) && IsAttached(g.nodes, d)
    requires forall x :: x in g.nodes[d].sources ==> !g.nodes[x].Outside?
    ensures Compute(g.nodes, map[], d) == Some(g.nodes[d].value)
  {
    assert !FollowsOutside(g.nodes, d);
  }

  lemma StaleKept(nodes: map<nat, Node>, next: map<nat, Node>, stale: set<nat>, left: set<nat>)
    requires StaleOutside(nodes, stale) && left <= stale
    requires forall x :: x in nodes ==> x in next && next[x].Outside? == nodes[x].Outside?
    requires forall x :: x in nodes && nodes[x].DerivedNode? ==> next[x].DerivedNode? && next[x].sources == nodes[x].sources
    ensures StaleOutside(next, left)
  {
    forall d | d in left ensures FollowsOutside(next, d) {
      var x :| x in nodes[d].sources && x in nodes && nodes[x].Outside?;
      assert x in next[d].sources && x in next;
    }
  }

  // ---------------------------------------------------------------- recomputation

  predicate Derivations(nodes: map<nat, Node>, order: seq<nat>) {
    forall i :: 0 <= i < |order| ==> order[i] in nodes && nodes[order[i]].DerivedNode?
  }

  /** Recomputes in order; none: a function threw or a value was refused. */
  function Recompute(nodes: map<nat, Node>, order: seq<nat>, values: map<nat, Json>, validate: bool): Option<map<nat, Json>>
    requires Ordered(nodes) && Derivations(nodes, order)
    decreases |order|
  {
    if order == [] then Some(values)
    else
      var next := Compute(nodes, values, order[0]);
      if next.None? || (validate && !nodes[order[0]].accepts(next.value)) then None
      else Recompute(nodes, order[1..], values[order[0] := next.value], validate)
  }

  /** All candidates are adopted. */
  function Adopt(nodes: map<nat, Node>, values: map<nat, Json>): map<nat, Node> {
    map x | x in nodes :: if x in values then nodes[x].(value := values[x]) else nodes[x]
  }

  /** `pending` holds every derivation over `x`, and over what it holds. */
  predicate Closed(g: Graph, x: nat, pending: seq<nat>) {
    && (x in g.dependents ==> forall d :: d in g.dependents[x] ==> d in pending)
    && (forall p :: p in pending && p in g.dependents ==> forall d :: d in g.dependents[p] ==> d in pending)
  }

  ghost predicate Increasing(order: seq<nat>) {
    forall i, j :: 0 <= i < j < |order| ==> order[i] < order[j]
  }

  lemma FirstOf(order: seq<nat>)
    requires Increasing(order) && order != []
    ensures Increasing(order[1..]) && order[0] !in order[1..]
    ensures forall x :: x in order <==> x == order[0] || x in order[1..]
    ensures forall x :: x in order[1..] ==> order[0] < x
  {
    var rest := order[1..];
    forall i, j | 0 <= i < j < |rest| ensures rest[i] < rest[j] { assert order[i + 1] < order[j + 1]; }
    forall j | 0 <= j < |rest| ensures order[0] < rest[j] { assert order[j + 1] == rest[j]; }
  }

  lemma {:induction false} RecomputeKeeps(nodes: map<nat, Node>, order: seq<nat>, values: map<nat, Json>, validate: bool)
    requires Ordered(nodes) && Derivations(nodes, order) && Increasing(order)
    requires Recompute(nodes, order, values, validate).Some?
    ensures var end := Recompute(nodes, order, values, validate).value;
            && (forall x :: x in end <==> x in values || x in order)
            && (forall x :: x in values && x !in order ==> end[x] == values[x])
    decreases |order|
  {
    if order != [] {
      FirstOf(order);
      RecomputeKeeps(nodes, order[1..], values[order[0] := Compute(nodes, values, order[0]).value], validate);
    }
  }

  /** Each recomputed value is its function over the final candidates: what comes later cannot matter. */
  lemma {:induction false} RecomputedAt(nodes: map<nat, Node>, order: seq<nat>, values: map<nat, Json>, validate: bool, d: nat)
    requires Ordered(nodes) && Derivations(nodes, order) && Increasing(order)
    requires Recompute(nodes, order, values, validate).Some? && d in order
    requires forall x :: x in values && order != [] ==> x < order[0]
    ensures var end := Recompute(nodes, order, values, validate).value;
            && d in end && d in nodes && nodes[d].DerivedNode? && Compute(nodes, end, d) == Some(end[d])
            && (validate ==> nodes[d].accepts(end[d]))
    decreases |order|
  {
    FirstOf(order);
    var first, rest := order[0], order[1..];
    var next := values[first := Compute(nodes, values, first).value];
    RecomputeKeeps(nodes, rest, next, validate);
    if d == first {
      FirstInputs(nodes, order, values, Recompute(nodes, order, values, validate).value);
    } else {
      RecomputedAt(nodes, rest, next, validate, d);
    }
  }

  lemma FirstInputs(nodes: map<nat, Node>, order: seq<nat>, values: map<nat, Json>, end: map<nat, Json>)
    requires Ordered(nodes) && Derivations(nodes, order) && Increasing(order) && order != []
    requires forall x :: x in end <==> x in values || x in order
    requires forall x :: x in values ==> x < order[0] && end[x] == values[x]
    ensures Compute(nodes, end, order[0]) == Compute(nodes, values, order[0])
  {
    var d := order[0];
    FirstOf(order);
    assert Inputs(nodes, end, d) == Inputs(nodes, values, d);
  }

  lemma AdoptOrdered(nodes: map<nat, Node>, values: map<nat, Json>)
    requires Ordered(nodes)
    ensures Ordered(Adopt(nodes, values))
    ensures forall d :: IsAttached(Adopt(nodes, values), d) <==> IsAttached(nodes, d)
  {
  }

  /** Reading what was adopted is reading the candidates. */
  lemma AdoptInputs(nodes: map<nat, Node>, values: map<nat, Json>, d: nat)
    requires Ordered(nodes) && d in nodes && nodes[d].DerivedNode?
    ensures Ordered(Adopt(nodes, values)) && Compute(Adopt(nodes, values), map[], d) == Compute(nodes, values, d)
  {
    assert Inputs(Adopt(nodes, values), map[], d) == Inputs(nodes, values, d);
  }

  /** Who was recomputed without an error is not stale. */
  function StillStale(stale: set<nat>, x: nat, order: seq<nat>): set<nat> {
    set d | d in stale && d != x && d !in order
  }

  /** What a write of `value` to `x` recomputes, in creation order. */
  ghost predicate Pending(g: Graph, x: nat, order: seq<nat>) {
    && x in g.nodes && !g.nodes[x].Outside? && Increasing(order) && Closed(g, x, order)
    && (forall d :: d in order ==> IsAttached(g.nodes, d) && x < d)
  }

  /**
   Glitch-free: once every transitive dependent of `x` is recomputed in creation order and everything is
   adopted, each of them is its function of the adopted values, and no other derivation notices.
   */
  lemma AdoptFresh(g: Graph, stale: set<nat>, x: nat, value: Json, order: seq<nat>, validate: bool)
    requires Valid(g, stale) && Pending(g, x, order) && Derivations(g.nodes, order)
    requires IsAttached(g.nodes, x) ==> Compute(g.nodes, map[], x) == Some(value)
    requires Recompute(g.nodes, order, map[x := value], validate).Some?
    ensures var end := Recompute(g.nodes, order, map[x := value], validate).value;
            Valid(Graph(Adopt(g.nodes, end), g.dependents), StillStale(stale, x, order))
  {
    hide StaleOutside;
    var start := map[x := value];
    var end := Recompute(g.nodes, order, start, validate).value;
    var adopted := Adopt(g.nodes, end);
    RecomputeKeeps(g.nodes, order, start, validate);
    AdoptOrdered(g.nodes, end);
    assert order != [] ==> order[0] in order;
    forall d | IsAttached(adopted, d) && d !in StillStale(stale, x, order)
      ensures Compute(adopted, map[], d) == Some(adopted[d].value)
    {
      AdoptInputs(g.nodes, end, d);
      if d in order { RecomputedAt(g.nodes, order, start, validate, d); } else { SameInputs(g, stale, x, order, end, d); }
    }
    AdoptLinked(g, end);
    StaleKept(g.nodes, adopted, stale, StillStale(stale, x, order));
  }

  lemma AdoptLinked(g: Graph, values: map<nat, Json>)
    requires Ordered(g.nodes) && Linked(g)
    ensures Linked(Graph(Adopt(g.nodes, values), g.dependents))
  {
  }

  /** A derivation that is not pending reads nothing that changed. */
  lemma SameInputs(g: Graph, stale: set<nat>, x: nat, order: seq<nat>, end: map<nat, Json>, d: nat)
    requires Valid(g, stale) && Pending(g, x, order) && IsAttached(g.nodes, d) && d !in order
    requires forall y :: y in end ==> y == x || y in order
    ensures Compute(g.nodes, end, d) == Compute(g.nodes, map[], d)
  {
    forall i | 0 <= i < |g.nodes[d].sources| ensures g.nodes[d].sources[i] !in end {
      var y := g.nodes[d].sources[i];
      assert y in g.nodes && (d in g.dependents[y] <==> !g.nodes[y].Outside?);
      assert y in order ==> IsAttached(g.nodes, y);
    }
    assert Inputs(g.nodes, end, d) == Inputs(g.nodes, map[], d);
  }

  // ---------------------------------------------------------------- attaching and detaching

  function Attached(g: Graph, d: nat, value: Json): Graph
    requires d in g.nodes && g.nodes[d].DerivedNode?
  {
    Graph(g.nodes[d := g.nodes[d].(attached := true, value := value)],
          map x | x in g.dependents ::
            if x in g.nodes[d].sources && x in g.nodes && !g.nodes[x].Outside? then g.dependents[x] + {d} else g.dependents[x])
  }

  function Detached(g: Graph, d: nat): Graph
    requires d in g.nodes && g.nodes[d].DerivedNode?
  {
    Graph(g.nodes[d := g.nodes[d].(attached := false)],
          map x | x in g.dependents :: if x in g.nodes[d].sources then g.dependents[x] - {d} else g.dependents[x])
  }

  /** Changing a node none of `e`'s sources is does not change what `e` reads. */
  lemma InputsElsewhere(nodes: map<nat, Node>, d: nat, node: Node, e: nat)
    requires Ordered(nodes) && Ordered(nodes[d := node]) && e in nodes && nodes[e].DerivedNode? && d in nodes
    requires d !in nodes[e].sources && (e == d ==> node.DerivedNode? && node.sources == nodes[d].sources && node.fn == nodes[d].fn)
    ensures Compute(nodes[d := node], map[], e) == Compute(nodes, map[], e)
  {
    assert forall i :: 0 <= i < |nodes[e].sources| ==> nodes[e].sources[i] in nodes[e].sources;
    assert Inputs(nodes[d := node], map[], e) == Inputs(nodes, map[], e);
  }

  lemma AttachedLinked(g: Graph, d: nat, value: Json)
    requires Linked(g) && d in g.nodes && g.nodes[d].DerivedNode?
    ensures Linked(Attached(g, d, value))
  {
  }

  lemma AttachedFresh(g: Graph, stale: set<nat>, d: nat, value: Json)
    requires Ordered(g.nodes) && Linked(g) && Fresh(g.nodes, stale)
    requires d in g.nodes && g.nodes[d].DerivedNode? && g.dependents[d] == {} && Compute(g.nodes, map[], d) == Some(value)
    ensures Ordered(Attached(g, d, value).nodes) && Fresh(Attached(g, d, value).nodes, stale - {d})
  {
    var next := Attached(g, d, value);
    assert Ordered(next.nodes);
    forall e | IsAttached(next.nodes, e) && e !in stale - {d}
      ensures Compute(next.nodes, map[], e) == Some(next.nodes[e].value)
    {
      assert e == d ==> forall i :: 0 <= i < |g.nodes[d].sources| ==> g.nodes[d].sources[i] < d;
      assert e != d ==> (d in g.nodes[e].sources <==> e in g.dependents[d]);
      InputsElsewhere(g.nodes, d, next.nodes[d], e);
    }
  }

  /** A derivation is attached before anything over it. */
  lemma AttachedValid(g: Graph, stale: set<nat>, d: nat, value: Json)
    requires Valid(g, stale) && d in g.nodes && g.nodes[d].DerivedNode? && g.dependents[d] == {}
    requires Compute(g.nodes, map[], d) == Some(value)
    ensures Valid(Attached(g, d, value), stale - {d})
  {
    hide StaleOutside, Fresh, Linked, Compute;
    StaleKept(g.nodes, Attached(g, d, value).nodes, stale, stale - {d});
    AttachedLinked(g, d, value);
    AttachedFresh(g, stale, d, value);
    hide Attached, Ordered;
  }

  lemma DetachedLinked(g: Graph, d: nat)
    requires Linked(g) && d in g.nodes && g.nodes[d].DerivedNode?
    ensures Linked(Detached(g, d))
  {
  }

  lemma DetachedFresh(g: Graph, stale: set<nat>, d: nat)
    requires Ordered(g.nodes) && Fresh(g.nodes, stale) && d in g.nodes && g.nodes[d].DerivedNode?
    ensures Ordered(Detached(g, d).nodes) && Fresh(Detached(g, d).nodes, stale)
  {
    var next := Detached(g, d);
    assert Ordered(next.nodes);
    forall e | IsAttached(next.nodes, e) && e !in stale
      ensures Compute(next.nodes, map[], e) == Some(next.nodes[e].value)
    {
      assert Inputs(next.nodes, map[], e) == Inputs(g.nodes, map[], e);
    }
  }

  /** What was derived from it keeps reading its last value. */
  lemma DetachedValid(g: Graph, stale: set<nat>, d: nat)
    requires Valid(g, stale) && d in g.nodes && g.nodes[d].DerivedNode?
    ensures Valid(Detached(g, d), stale)
  {
    hide StaleOutside, Fresh, Linked;
    StaleKept(g.nodes, Detached(g, d).nodes, stale, stale);
    DetachedLinked(g, d);
    DetachedFresh(g, stale, d);
    hide Detached, Ordered;
  }

  function Followers(nodes: map<nat, Node>, x: nat): set<nat> {
    set d | d in nodes && IsAttached(nodes, d) && x in nodes[d].sources
  }

  lemma FollowersStale(nodes: map<nat, Node>, stale: set<nat>, followers: set<nat>, x: nat)
    requires StaleOutside(nodes, stale) && x in nodes && nodes[x].Outside?
    requires forall d :: d in followers ==> d in nodes && nodes[d].DerivedNode? && x in nodes[d].sources
    ensures StaleOutside(nodes, stale + followers)
  {
  }

  /** An outside readable has a new value: who follows it is stale until it recomputes. */
  lemma OutsideValid(g: Graph, stale: set<nat>, x: nat, value: Json)
    requires Valid(g, stale) && x in g.nodes && g.nodes[x].Outside?
    ensures Valid(Graph(g.nodes[x := Outside(value)], g.dependents), stale + Followers(g.nodes, x))
  {
    hide StaleOutside;
    var nodes := g.nodes[x := Outside(value)];
    StaleKept(g.nodes, nodes, stale, stale);
    FollowersStale(nodes, stale, Followers(g.nodes, x), x);
    assert Ordered(nodes);
    forall e: nat | IsAttached(nodes, e) && e !in stale + Followers(g.nodes, x)
      ensures Compute(nodes, map[], e) == Some(nodes[e].value)
    {
      InputsElsewhere(g.nodes, x, nodes[x], e);
    }
  }

  /** A new source comes after every other. */
  lemma AddedValid(g: Graph, stale: set<nat>, x: nat, node: Node)
    requires Valid(g, stale) && forall y :: y in g.nodes ==> y < x
    requires node.DerivedNode? ==> !node.attached && forall i :: 0 <= i < |node.sources| ==> node.sources[i] in g.nodes
    ensures Valid(Graph(g.nodes[x := node], g.dependents[x := {}]), stale)
  {
    hide StaleOutside;
    var nodes := g.nodes[x := node];
    StaleKept(g.nodes, nodes, stale, stale);
    AddedLinked(g, x, node);
    assert Ordered(nodes);
    hide Linked;
    AddedFresh(g.nodes, stale, x, node);
    hide Fresh, Ordered;
  }

  lemma AddedLinked(g: Graph, x: nat, node: Node)
    requires Linked(g) && Ordered(g.nodes) && forall y :: y in g.nodes ==> y < x
    requires node.DerivedNode? ==> !node.attached
    ensures Linked(Graph(g.nodes[x := node], g.dependents[x := {}]))
  {
    var nodes := g.nodes[x := node];
    forall d | IsAttached(nodes, d) ensures IsAttached(g.nodes, d) && x !in nodes[d].sources {
      assert forall i :: 0 <= i < |g.nodes[d].sources| ==> g.nodes[d].sources[i] in g.nodes;
    }
    var dependents := g.dependents[x := {}];
    forall y, d | y in nodes
      ensures d in dependents[y] <==> IsAttached(nodes, d) && y in nodes[d].sources && !nodes[y].Outside?
    {
      if y != x {
        assert d in g.dependents[y] <==> IsAttached(g.nodes, d) && y in g.nodes[d].sources && !g.nodes[y].Outside?;
        assert d != x ==> IsAttached(nodes, d) == IsAttached(g.nodes, d);
      }
    }
  }

  lemma AddedFresh(nodes: map<nat, Node>, stale: set<nat>, x: nat, node: Node)
    requires Ordered(nodes) && Ordered(nodes[x := node]) && Fresh(nodes, stale) && x !in nodes
    requires node.DerivedNode? ==> !node.attached
    ensures Fresh(nodes[x := node], stale)
  {
    var next := nodes[x := node];
    forall e | IsAttached(next, e) && e !in stale ensures Compute(next, map[], e) == Some(next[e].value) {
      assert Inputs(next, map[], e) == Inputs(nodes, map[], e);
    }
  }
}
