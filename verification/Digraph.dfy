/** Directed graphs on numbered nodes: paths, cycles, and what adding an edge does to them. */
module Digraphs {
  type Edges = map<nat, set<nat>>

  /** `path` leads from a successor of `x` over successors to `d`. */
  ghost predicate Leads(edges: Edges, x: nat, path: seq<nat>, d: nat)
    decreases |path|
  {
    && path != [] && x in edges && path[0] in edges[x]
    && (if |path| == 1 then path[0] == d else Leads(edges, path[0], path[1..], d))
  }

  /** Over at least one edge. */
  ghost predicate Reaches(edges: Edges, x: nat, d: nat) {
    exists path :: Leads(edges, x, path, d)
  }

  ghost predicate Acyclic(edges: Edges) {
    forall x :: !Reaches(edges, x, x)
  }

  lemma ReachesDirectly(edges: Edges, x: nat, d: nat)
    requires x in edges && d in edges[x]
    ensures Reaches(edges, x, d)
  {
    assert Leads(edges, x, [d], d);
  }

  lemma ReachesThrough(edges: Edges, x: nat, y: nat, d: nat)
    requires x in edges && y in edges[x] && Reaches(edges, y, d)
    ensures Reaches(edges, x, d)
  {
    var path :| Leads(edges, y, path, d);
    assert ([y] + path)[1..] == path;
    assert Leads(edges, x, [y] + path, d);
  }

  lemma {:induction false} Onward(edges: Edges, x: nat, path: seq<nat>, y: nat, d: nat)
    requires Leads(edges, x, path, y) && Reaches(edges, y, d)
    ensures Reaches(edges, x, d)
    decreases |path|
  {
    if |path| > 1 { Onward(edges, path[0], path[1..], y, d); }
    ReachesThrough(edges, x, path[0], d);
  }

  lemma ReachesOnward(edges: Edges, x: nat, y: nat, d: nat)
    requires Reaches(edges, x, y) && Reaches(edges, y, d)
    ensures Reaches(edges, x, d)
  {
    var path :| Leads(edges, x, path, y);
    Onward(edges, x, path, y, d);
  }

  /** A set closed under successors holds everything a path over it leads to. */
  lemma {:induction false} StaysInside(edges: Edges, x: nat, inside: set<nat>, path: seq<nat>, d: nat)
    requires x in edges && edges[x] <= inside && Leads(edges, x, path, d)
    requires forall y :: y in inside && y in edges ==> edges[y] <= inside
    ensures d in inside
    decreases |path|
  {
    if |path| > 1 { StaysInside(edges, path[0], inside, path[1..], d); }
  }

  lemma ReachesInside(edges: Edges, x: nat, inside: set<nat>)
    requires x in edges ==> edges[x] <= inside
    requires forall y :: y in inside && y in edges ==> edges[y] <= inside
    ensures forall d :: Reaches(edges, x, d) ==> d in inside
  {
    forall d | Reaches(edges, x, d) ensures d in inside {
      var path :| Leads(edges, x, path, d);
      StaysInside(edges, x, inside, path, d);
    }
  }

  // ---------------------------------------------------------------- fewer and more edges

  ghost predicate Includes(more: Edges, fewer: Edges) {
    forall x :: x in fewer ==> forall y :: y in fewer[x] ==> x in more && y in more[x]
  }

  lemma {:induction false} LeadsInMore(more: Edges, fewer: Edges, x: nat, path: seq<nat>, d: nat)
    requires Includes(more, fewer) && Leads(fewer, x, path, d)
    ensures Leads(more, x, path, d)
    decreases |path|
  {
    if |path| > 1 { LeadsInMore(more, fewer, path[0], path[1..], d); }
  }

  lemma ReachesInMore(more: Edges, fewer: Edges, x: nat, d: nat)
    requires Includes(more, fewer) && Reaches(fewer, x, d)
    ensures Reaches(more, x, d)
  {
    var path :| Leads(fewer, x, path, d);
    LeadsInMore(more, fewer, x, path, d);
  }

  lemma AcyclicInFewer(more: Edges, fewer: Edges)
    requires Includes(more, fewer) && Acyclic(more)
    ensures Acyclic(fewer)
  {
    forall x | Reaches(fewer, x, x) ensures false { ReachesInMore(more, fewer, x, x); }
  }

  function WithEdge(edges: Edges, a: nat, b: nat): Edges {
    edges[a := (if a in edges then edges[a] else {}) + {b}]
  }

  ghost predicate ReachesOrIs(edges: Edges, x: nat, d: nat) {
    x == d || Reaches(edges, x, d)
  }

  /** A path with the new edge passes it, or was there before. */
  lemma {:induction false} OverNewEdge(edges: Edges, a: nat, b: nat, x: nat, path: seq<nat>, d: nat)
    requires Leads(WithEdge(edges, a, b), x, path, d)
    ensures Reaches(edges, x, d) || (ReachesOrIs(edges, x, a) && ReachesOrIs(edges, b, d))
    decreases |path|
  {
    var y := path[0];
    if |path| > 1 { OverNewEdge(edges, a, b, y, path[1..], d); }
    if x in edges && y in edges[x] {
      ReachesDirectly(edges, x, y);
      if Reaches(edges, y, a) { ReachesThrough(edges, x, y, a); }
      if Reaches(edges, y, d) { ReachesThrough(edges, x, y, d); }
    } else {
      assert x == a && y == b;
    }
  }

  /** Exactly when a new edge closes a cycle. */
  lemma NewEdgeCloses(edges: Edges, a: nat, b: nat)
    requires Acyclic(edges)
    ensures Acyclic(WithEdge(edges, a, b)) <==> !ReachesOrIs(edges, b, a)
  {
    var more := WithEdge(edges, a, b);
    ReachesDirectly(more, a, b);
    if ReachesOrIs(edges, b, a) {
      if b != a {
        ReachesInMore(more, edges, b, a);
        ReachesThrough(more, a, b, a);
      }
    } else {
      forall x | Reaches(more, x, x) ensures false {
        var path :| Leads(more, x, path, x);
        OverNewEdge(edges, a, b, x, path, x);
        if x == a || x == b {
        } else {
          ReachesOnward(edges, b, x, a);
        }
      }
    }
  }
}
