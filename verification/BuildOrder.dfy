/** Dependency-first order of the workspace packages, by a depth-first visit that reports cycles. */
module BuildOrders {
  import opened Digraphs

  /** `dependencies`: for each package its workspace dependencies, sorted. */
  type Dependencies = map<nat, seq<nat>>

  predicate Known(deps: Dependencies) {
    forall x, i :: x in deps && 0 <= i < |deps[x]| ==> deps[x][i] in deps
  }

  function EdgesOf(deps: Dependencies): Edges {
    map x | x in deps :: set d | d in deps[x]
  }

  /** Consecutive packages depend on each other. */
  ghost predicate Chain(deps: Dependencies, path: seq<nat>) {
    forall i :: 0 <= i < |path| - 1 ==> path[i] in deps && path[i + 1] in deps[path[i]]
  }

  /** The reported path: a chain whose last package was on it before. */
  ghost predicate ClosesCycle(deps: Dependencies, path: seq<nat>) {
    Chain(deps, path) && exists i :: 0 <= i < |path| - 1 && path[i] == path[|path| - 1]
  }

  /** No package twice, and each after everything it depends on. */
  ghost predicate InOrder(deps: Dependencies, ordered: seq<nat>) {
    && (forall i, j :: 0 <= i < j < |ordered| ==> ordered[i] != ordered[j])
    && (forall i, d :: 0 <= i < |ordered| && ordered[i] in deps && d in deps[ordered[i]] ==> d in ordered[..i])
  }

  // ---------------------------------------------------------------- what the two outcomes mean

  lemma {:induction false} ChainReaches(deps: Dependencies, path: seq<nat>, i: nat, j: nat)
    requires Chain(deps, path) && i < j < |path|
    ensures Reaches(EdgesOf(deps), path[i], path[j])
    decreases j - i
  {
    assert path[i + 1] in EdgesOf(deps)[path[i]];
    ReachesDirectly(EdgesOf(deps), path[i], path[i + 1]);
    if i + 1 < j {
      ChainReaches(deps, path, i + 1, j);
      ReachesOnward(EdgesOf(deps), path[i], path[i + 1], path[j]);
    }
  }

  lemma ReportedMeansCycle(deps: Dependencies, path: seq<nat>)
    requires ClosesCycle(deps, path)
    ensures !Acyclic(EdgesOf(deps))
  {
    var i :| 0 <= i < |path| - 1 && path[i] == path[|path| - 1];
    ChainReaches(deps, path, i, |path| - 1);
  }

  /** Over dependencies, positions only get earlier. */
  lemma {:induction false} EarlierAlong(deps: Dependencies, ordered: seq<nat>, i: nat, path: seq<nat>, d: nat)
    requires InOrder(deps, ordered) && i < |ordered| && Leads(EdgesOf(deps), ordered[i], path, d)
    ensures d in ordered[..i]
    decreases |path|
  {
    assert path[0] in ordered[..i];
    var k :| 0 <= k < i && ordered[k] == path[0];
    if |path| > 1 {
      EarlierAlong(deps, ordered, k, path[1..], d);
      assert forall x :: x in ordered[..k] ==> x in ordered[..i];
    }
  }

  lemma OrderMeansAcyclic(deps: Dependencies, ordered: seq<nat>)
    requires InOrder(deps, ordered) && forall x :: x in deps ==> x in ordered
    ensures Acyclic(EdgesOf(deps))
  {
    forall x | Reaches(EdgesOf(deps), x, x) ensures false {
      var path :| Leads(EdgesOf(deps), x, path, x);
      var i :| 0 <= i < |ordered| && ordered[i] == x;
      EarlierAlong(deps, ordered, i, path, x);
    }
  }

  // ---------------------------------------------------------------- the visit

  datatype Colour = Visiting | Done

  datatype Outcome = Ordered(order: seq<nat>) | DependencyCycle(path: seq<nat>)

  class Builder {
    const deps: Dependencies
    var state: map<nat, Colour>
    var ordered: seq<nat>
    var path: seq<nat>

    /** The path holds the packages being visited; what is done is in order. */
    ghost predicate Valid()
      reads this
    {
      && Known(deps) && Chain(deps, path) && InOrder(deps, ordered)
      && (forall x :: x in path <==> x in state && state[x].Visiting?)
      && (forall x :: x in ordered <==> x in state && state[x].Done?)
      && (forall x :: x in state ==> x in deps)
      && (forall i, j :: 0 <= i < j < |path| ==> path[i] != path[j])
    }

    constructor (deps: Dependencies)
      requires Known(deps)
      ensures Valid() && this.deps == deps && state == map[] && path == []
    {
      this.deps, state, ordered, path := deps, map[], [], [];
    }

    method Visit(pkg: nat) returns (ok: bool)
      requires Valid() && pkg in deps
      requires path != [] ==> pkg in deps[path[|path| - 1]]
      modifies this
      ensures ok ==> Valid() && path == old(path) && pkg in ordered && old(ordered) <= ordered
      ensures ok ==> old(state).Keys <= state.Keys
      ensures !ok ==> ClosesCycle(deps, path)
      decreases deps.Keys - state.Keys
    {
      if pkg in state && state[pkg].Done? { return true; }
      if pkg in state {
        ClosesHere(path, pkg);
        path := path + [pkg];
        return false;
      }
      Enter(pkg);
      ghost var entered := path;
      var i := 0;
      while i < |deps[pkg]|
        invariant 0 <= i <= |deps[pkg]| && Valid() && path == entered && old(ordered) <= ordered
        invariant old(state).Keys + {pkg} <= state.Keys
        invariant forall k :: 0 <= k < i ==> deps[pkg][k] in ordered
      {
        ghost var before := ordered;
        ok := Visit(deps[pkg][i]);
        if !ok { return; }
        assert forall x :: x in before ==> x in ordered;
        i := i + 1;
      }
      Leave(pkg);
      ok := true;
    }

    lemma ClosesHere(path: seq<nat>, pkg: nat)
      requires Chain(deps, path) && pkg in path && path[|path| - 1] in deps && pkg in deps[path[|path| - 1]]
      ensures ClosesCycle(deps, path + [pkg])
    {
      var i :| 0 <= i < |path| && path[i] == pkg;
      var more := path + [pkg];
      assert more[i] == more[|more| - 1];
    }

    method Enter(pkg: nat)
      requires Valid() && pkg in deps && pkg !in state && (path != [] ==> pkg in deps[path[|path| - 1]])
      modifies this`state, this`path
      ensures Valid() && path == old(path) + [pkg] && state == old(state)[pkg := Visiting]
    {
      state := state[pkg := Visiting];
      path := path + [pkg];
    }

    method Leave(pkg: nat)
      requires Valid() && path != [] && path[|path| - 1] == pkg && forall k :: 0 <= k < |deps[pkg]| ==> deps[pkg][k] in ordered
      modifies this
      ensures Valid() && path == old(path)[..|old(path)| - 1] && state == old(state)[pkg := Done] && ordered == old(ordered) + [pkg]
    {
      assert pkg in path && pkg !in ordered;
      ghost var before := path;
      path := path[..|path| - 1];
      assert before == path + [pkg];
      state := state[pkg := Done];
      ordered := ordered + [pkg];
      AppendedInOrder(old(ordered), pkg);
    }

    lemma AppendedInOrder(before: seq<nat>, pkg: nat)
      requires InOrder(deps, before) && pkg !in before && pkg in deps && forall d :: d in deps[pkg] ==> d in before
      ensures InOrder(deps, before + [pkg])
    {
      var more := before + [pkg];
      forall i, d | 0 <= i < |more| && more[i] in deps && d in deps[more[i]] ensures d in more[..i] {
        assert i <= |before| && more[..i] == before[..i];
      }
    }
  }

  /** `packages`: every package, by directory. */
  method BuildOrder(packages: seq<nat>, deps: Dependencies) returns (outcome: Outcome)
    requires Known(deps) && (forall x :: x in packages <==> x in deps)
    ensures outcome.Ordered? ==> InOrder(deps, outcome.order) && forall x :: x in outcome.order <==> x in packages
    ensures outcome.DependencyCycle? ==> ClosesCycle(deps, outcome.path)
    ensures outcome.DependencyCycle? <==> !Acyclic(EdgesOf(deps))
  {
    var builder := new Builder(deps);
    var i := 0;
    while i < |packages|
      invariant 0 <= i <= |packages| && builder.Valid() && builder.deps == deps && builder.path == []
      invariant forall k :: 0 <= k < i ==> packages[k] in builder.ordered
    {
      ghost var before := builder.ordered;
      var ok := builder.Visit(packages[i]);
      if !ok {
        ReportedMeansCycle(deps, builder.path);
        return DependencyCycle(builder.path);
      }
      assert forall x :: x in before ==> x in builder.ordered;
      i := i + 1;
    }
    OrderMeansAcyclic(deps, builder.ordered);
    outcome := Ordered(builder.ordered);
  }
}
