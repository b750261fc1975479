/** References between the objects of one host: acquiring them and disposing of objects. */
module References {
  import opened Digraphs
  import opened Wrappers

  // ---------------------------------------------------------------- disposal order

  /** What objects of the set hold, within the set. */
  function Within(refs: Edges, objects: set<nat>): Edges {
    map o | o in objects && o in refs :: refs[o] * objects
  }

  function Held(refs: Edges, o: nat): set<nat> {
    if o in refs then refs[o] else {}
  }

  /** Every object goes in exactly one wave. */
  ghost predicate Once(waves: seq<set<nat>>, objects: set<nat>) {
    && (forall i, o :: 0 <= i < |waves| && o in waves[i] ==> o in objects)
    && (forall o :: o in objects ==> exists i :: 0 <= i < |waves| && o in waves[i])
    && (forall i, j :: 0 <= i < j < |waves| ==> waves[i] !! waves[j])
  }

  /** Whoever holds an object went in an earlier wave. */
  ghost predicate HoldersFirst(refs: Edges, waves: seq<set<nat>>) {
    forall i, j, a, b :: 0 <= i < |waves| && 0 <= j < |waves| && a in waves[i] && b in waves[j] && b in Held(refs, a) ==> i < j
  }

  ghost predicate Unheld(refs: Edges, objects: set<nat>, o: nat) {
    o in objects && forall a :: a in objects ==> o !in Held(refs, a)
  }

  /** Objects that hold `o`, directly or not. */
  ghost function Holders(refs: Edges, objects: set<nat>, o: nat): set<nat> {
    set a | a in objects && Reaches(Within(refs, objects), a, o)
  }

  /** Climbing from an object to one that holds it ends at an object nobody holds. */
  lemma {:induction false} SomeUnheld(refs: Edges, objects: set<nat>, o: nat) returns (top: nat)
    requires o in objects && Acyclic(Within(refs, objects))
    ensures Unheld(refs, objects, top)
    decreases |Holders(refs, objects, o)|
  {
    top := o;
    if a :| a in objects && o in Held(refs, a) {
      var inner := Within(refs, objects);
      ReachesDirectly(inner, a, o);
      forall h | h in Holders(refs, objects, a) ensures h in Holders(refs, objects, o) { ReachesOnward(inner, h, a, o); }
      Smaller(Holders(refs, objects, a), Holders(refs, objects, o), a);
      top := SomeUnheld(refs, objects, a);
    }
  }

  lemma Smaller(fewer: set<nat>, more: set<nat>, x: nat)
    requires fewer <= more && x in more && x !in fewer
    ensures |fewer| < |more|
  {
    assert fewer <= more - {x};
    SubsetSize(fewer, more - {x});
  }

  lemma {:induction false} SubsetSize(fewer: set<nat>, more: set<nat>)
    requires fewer <= more
    ensures |fewer| <= |more|
    decreases |fewer|
  {
    if fewer != {} {
      var x :| x in fewer;
      SubsetSize(fewer - {x}, more - {x});
    }
  }

  /** Along a path within the set, waves only get later. */
  lemma {:induction false} LaterAlong(refs: Edges, objects: set<nat>, waves: seq<set<nat>>, x: nat, path: seq<nat>, d: nat, i: nat, j: nat)
    requires Once(waves, objects) && HoldersFirst(refs, waves) && Leads(Within(refs, objects), x, path, d)
    requires i < |waves| && x in waves[i] && j < |waves| && d in waves[j]
    ensures i < j
    decreases |path|
  {
    assert path[0] in Held(refs, x) && path[0] in objects;
    if |path| > 1 {
      var k :| 0 <= k < |waves| && path[0] in waves[k];
      LaterAlong(refs, objects, waves, path[0], path[1..], d, k, j);
    }
  }

  lemma OrderMeansAcyclic(refs: Edges, objects: set<nat>, waves: seq<set<nat>>)
    requires Once(waves, objects) && HoldersFirst(refs, waves)
    ensures Acyclic(Within(refs, objects))
  {
    forall x | Reaches(Within(refs, objects), x, x) ensures false {
      var path :| Leads(Within(refs, objects), x, path, x);
      var i :| 0 <= i < |waves| && x in waves[i];
      LaterAlong(refs, objects, waves, x, path, x, i, i);
    }
  }

  /** The waves so far, with `remaining` still to go. */
  ghost predicate SoFar(refs: Edges, objects: set<nat>, waves: seq<set<nat>>, remaining: set<nat>) {
    && remaining <= objects && Once(waves, objects - remaining)
    && (Acyclic(Within(refs, objects)) ==>
          HoldersFirst(refs, waves)
          && forall i, a, b :: 0 <= i < |waves| && b in waves[i] && a in remaining ==> b !in Held(refs, a))
  }

  lemma WaveKeepsOnce(waves: seq<set<nat>>, objects: set<nat>, remaining: set<nat>, wave: set<nat>)
    requires remaining <= objects && Once(waves, objects - remaining) && wave <= remaining
    ensures Once(waves + [wave], objects - (remaining - wave))
  {
    var more := waves + [wave];
    assert forall k :: 0 <= k < |waves| ==> more[k] == waves[k];
    forall i, o | 0 <= i < |more| && o in more[i] ensures o in objects - (remaining - wave) {
      if i < |waves| { assert o in waves[i] && o in objects - remaining; }
    }
    forall o | o in objects - (remaining - wave) ensures exists i :: 0 <= i < |more| && o in more[i] {
      if o in wave {
        assert more[|waves|] == wave;
      } else {
        assert o in objects - remaining;
        var i :| 0 <= i < |waves| && o in waves[i];
        assert more[i] == waves[i];
      }
    }
  }

  lemma WaveKeeps(refs: Edges, objects: set<nat>, waves: seq<set<nat>>, remaining: set<nat>, wave: set<nat>)
    requires SoFar(refs, objects, waves, remaining) && wave <= remaining
    requires Acyclic(Within(refs, objects)) ==> forall o :: o in wave ==> Unheld(refs, remaining, o)
    ensures SoFar(refs, objects, waves + [wave], remaining - wave)
  {
    WaveKeepsOnce(waves, objects, remaining, wave);
  }

  /** Waves of the objects nobody left holds, or all of them if there are none. */
  method DisposeHoldersFirst(refs: Edges, objects: set<nat>) returns (waves: seq<set<nat>>)
    ensures Once(waves, objects)
    ensures HoldersFirst(refs, waves) <==> Acyclic(Within(refs, objects))
  {
    var remaining := objects;
    waves := [];
    assert objects - objects == {};
    while remaining != {}
      invariant SoFar(refs, objects, waves, remaining)
      decreases |remaining|
    {
      var held := HeldBy(refs, remaining);
      var wave := remaining - held;
      if Acyclic(Within(refs, objects)) { ghost var top := UnheldExists(refs, objects, remaining); }
      if wave == {} { wave := remaining; }
      WaveKeeps(refs, objects, waves, remaining, wave);
      waves := waves + [wave];
      remaining := remaining - wave;
    }
    assert objects - remaining == objects;
    if HoldersFirst(refs, waves) { OrderMeansAcyclic(refs, objects, waves); }
  }

  lemma UnheldExists(refs: Edges, objects: set<nat>, remaining: set<nat>) returns (top: nat)
    requires Acyclic(Within(refs, objects)) && remaining <= objects && remaining != {}
    ensures Unheld(refs, remaining, top)
  {
    AcyclicInFewer(Within(refs, objects), Within(refs, remaining));
    var o :| o in remaining;
    top := SomeUnheld(refs, remaining, o);
  }

  method HeldBy(refs: Edges, objects: set<nat>) returns (held: set<nat>)
    ensures forall o :: o in objects ==> (o !in held <==> Unheld(refs, objects, o))
  {
    held := {};
    var left := objects;
    while left != {}
      invariant left <= objects
      invariant forall o :: o in held <==> exists a :: a in objects - left && o in Held(refs, a)
      decreases |left|
    {
      var a :| a in left;
      left := left - {a};
      held := held + Held(refs, a);
    }
  }

  // ---------------------------------------------------------------- acquiring

  datatype Outcome = Acquired(target: nat) | Cycle | BeingUpgraded

  class HostObjects {
    /** The live object at each address. */
    var objects: map<nat, nat>
    /** What each object's declarations reference on this host, in every code version that is installed or pending. */
    var refs: Edges
    var count: nat

    ghost predicate Valid()
      reads this
    {
      && (forall a :: a in objects ==> objects[a] in refs)
      && (forall x :: x in refs ==> x < count && refs[x] <= refs.Keys)
      && Acyclic(refs)
    }

    constructor ()
      ensures Valid() && refs == map[] && objects == map[]
    {
      objects, refs, count := map[], map[], 0;
    }

    method PushAll(stack: seq<nat>, targets: set<nat>) returns (pushed: seq<nat>)
      ensures forall x :: x in pushed <==> x in stack || x in targets
    {
      pushed := stack;
      var left := targets;
      while left != {}
        invariant left <= targets && forall x :: x in pushed <==> x in stack || x in targets - left
        decreases |left|
      {
        var x :| x in left;
        left := left - {x};
        pushed := pushed + [x];
      }
    }

    /** Decides reachability exactly. */
    method ReachesObject(from: nat, to: nat) returns (found: bool)
      requires Valid() && from in refs
      ensures found <==> ReachesOrIs(refs, from, to)
    {
      var seen: set<nat>, stack := {}, [from];
      while stack != []
        invariant seen <= refs.Keys && to !in seen
        invariant forall x :: x in stack ==> x in refs && ReachesOrIs(refs, from, x)
        invariant forall x :: x in seen ==> ReachesOrIs(refs, from, x)
        invariant from in seen || from in stack
        invariant forall x, y :: x in seen && y in refs[x] ==> y in seen || y in stack
        decreases refs.Keys - seen, |stack|
      {
        var target := stack[|stack| - 1];
        ghost var before := stack;
        stack := stack[..|stack| - 1];
        assert forall x :: x in before <==> x in stack || x == target;
        if target == to { return true; }
        if target !in seen {
          seen := seen + {target};
          forall y | y in refs[target] ensures Reaches(refs, from, y) {
            ReachesDirectly(refs, target, y);
            if target != from { ReachesOnward(refs, from, target, y); }
          }
          stack := PushAll(stack, refs[target]);
        }
      }
      ReachesInside(refs, from, seen);
      found := false;
    }

    /** References are refused exactly when they would close a cycle; objects are created on demand. */
    method Acquire(from: Option<nat>, address: nat, upgrading: bool) returns (outcome: Outcome)
      requires Valid() && (from.Some? ==> from.value in refs)
      modifies this
      ensures Valid()
      ensures outcome == Cycle <==>
              from.Some? && address in old(objects) && !Acyclic(WithEdge(old(refs), from.value, old(objects)[address]))
      ensures outcome == BeingUpgraded <==> address !in old(objects) && upgrading
      ensures !outcome.Acquired? ==> objects == old(objects) && refs == old(refs)
      ensures outcome.Acquired? ==> objects == old(objects)[address := outcome.target]
                                    && (address !in old(objects) ==> outcome.target !in old(refs))
      ensures outcome.Acquired? ==>
                refs == var known := if address in old(objects) then old(refs) else old(refs)[outcome.target := {}];
                        if from.Some? then WithEdge(known, from.value, outcome.target) else known
    {
      if address in objects {
        var target := objects[address];
        if from.Some? {
          NewEdgeCloses(refs, from.value, target);
          var closes := ReachesObject(target, from.value);
          if closes { return Cycle; }
          refs := WithEdge(refs, from.value, target);
        }
        return Acquired(target);
      }
      if upgrading { return BeingUpgraded; }
      var target := count;
      NewObjectAcyclic(refs, target);
      count := count + 1;
      refs := refs[target := {}];
      objects := objects[address := target];
      if from.Some? {
        NothingFromNew(refs, target);
        NewEdgeCloses(refs, from.value, target);
        refs := WithEdge(refs, from.value, target);
      }
      outcome := Acquired(target);
    }

    /** References end and objects are forgotten: no cycle can appear. */
    method Release(from: nat, to: nat)
      requires Valid() && from in refs
      modifies this`refs
      ensures Valid() && refs == old(refs)[from := old(refs)[from] - {to}]
    {
      AcyclicInFewer(refs, refs[from := refs[from] - {to}]);
      refs := refs[from := refs[from] - {to}];
    }

    /** The object is being disposed of: its address is free, and it stays in the graph. */
    method Forget(address: nat)
      requires Valid() && address in objects
      modifies this`objects
      ensures Valid() && objects == old(objects) - {address}
    {
      objects := objects - {address};
    }

    /** A disposed object references nothing. */
    method Cleared(target: nat)
      requires Valid() && target in refs
      modifies this`refs
      ensures Valid() && refs == old(refs)[target := {}]
    {
      NewObjectAcyclic(refs, target);
      refs := refs[target := {}];
    }

    /** Disposes of the whole host, wave by wave; who is referenced waits for who references it. */
    method Close() returns (waves: seq<set<nat>>)
      requires Valid()
      modifies this
      ensures Valid() && objects == map[]
      ensures Once(waves, old(objects).Values) && HoldersFirst(old(refs), waves)
    {
      AcyclicInFewer(refs, Within(refs, objects.Values));
      waves := DisposeHoldersFirst(refs, objects.Values);
      objects := map[];
    }
  }

  lemma NewObjectAcyclic(refs: Edges, target: nat)
    requires Acyclic(refs)
    ensures Acyclic(refs[target := {}])
  {
    assert target in refs ==> Includes(refs, refs[target := {}]);
    AcyclicInFewer(refs, refs[target := {}]);
  }

  lemma NothingFromNew(refs: Edges, target: nat)
    requires target in refs && refs[target] == {}
    ensures forall d :: !Reaches(refs, target, d)
  {
    ReachesInside(refs, target, {});
  }
}
