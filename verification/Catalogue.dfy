/**
 Publication of a provider's model catalogue: refreshes overlap and supersede each other, and what they publish
 is chained and checked against the refresh generation before and after it is stored.
 */
module Catalogues {
  import opened Schemas
  import opened Wrappers

  type Models = seq<Json>

  /** What a publication does to the store: nothing, delete, or write. */
  datatype Persist = Keep | Erase | Store(models: Models)

  /** `previous`: the publication whose end this one awaits. */
  datatype Publication = Publication(generation: nat, persist: Persist, update: Option<Models>, previous: Option<nat>, phase: Phase)

  /** `Stored`: the store operation is under way.  A failed one leaves the store as it was. */
  datatype Phase = Queued | Storing | Finished(published: bool) | Failed

  /**
   One provider.  `controller`: the refresh that a newer one aborts; `aborted`: the refreshes whose signal is aborted.
   `applied`: the publications that took effect in memory; `writers`: those that changed the store, in order.
   */
  datatype Catalogue = Catalogue(generation: nat, controller: Option<nat>, aborted: set<nat>, publications: seq<Publication>,
                                 tail: Option<nat>, store: Option<Models>, models: Models, applied: seq<nat>, writers: seq<nat>)

  datatype Step =
    | Supersede
    | Begin
    | EndRefresh(generation: nat)
    | AbortCaller(generation: nat)
    | Publish(generation: nat, persist: Persist, update: Option<Models>)
    | Turn(i: nat)
    | StoreDone(i: nat)
    | StoreFails(i: nat)
    | TailSettled

  predicate Over(c: Catalogue, i: nat) {
    i < |c.publications| && (c.publications[i].phase.Finished? || c.publications[i].phase.Failed?)
  }

  predicate Stale(c: Catalogue, p: Publication) {
    p.generation in c.aborted || p.generation != c.generation
  }

  predicate Enabled(c: Catalogue, step: Step) {
    match step
    case Supersede => true
    case Begin => true
    case EndRefresh(_) => true
    case AbortCaller(_) => true
    case Publish(generation, _, _) => generation <= c.generation
    case Turn(i) =>
      i < |c.publications| && c.publications[i].phase.Queued?
      && (c.publications[i].previous.Some? ==> Over(c, c.publications[i].previous.value))
    case StoreDone(i) => i < |c.publications| && c.publications[i].phase.Storing?
    case StoreFails(i) => i < |c.publications| && c.publications[i].phase.Storing?
    case TailSettled => c.tail.Some? && Over(c, c.tail.value)
  }

  function Superseded(c: Catalogue): Catalogue {
    c.(generation := c.generation + 1, controller := None,
       aborted := c.aborted + if c.controller.Some? then {c.controller.value} else {})
  }

  function InPhase(c: Catalogue, i: nat, phase: Phase): Catalogue
    requires i < |c.publications|
  {
    c.(publications := c.publications[i := c.publications[i].(phase := phase)])
  }

  /** The check before memory changes. */
  function Concluded(c: Catalogue, i: nat): Catalogue
    requires i < |c.publications|
  {
    if Stale(c, c.publications[i]) then InPhase(c, i, Finished(false))
    else
      var update := c.publications[i].update;
      InPhase(c, i, Finished(true)).(models := if update.Some? then update.value else c.models, applied := c.applied + [i])
  }

  function StoreAfter(store: Option<Models>, persist: Persist): Option<Models> {
    match persist
    case Keep => store
    case Erase => None
    case Store(models) => Some(models)
  }

  function Next(c: Catalogue, step: Step): Catalogue
    requires Enabled(c, step)
  {
    match step
    case Supersede => Superseded(c)
    case Begin => Superseded(c).(controller := Some(c.generation + 1))
    case EndRefresh(generation) => if c.controller == Some(generation) then c.(controller := None) else c
    case AbortCaller(generation) => c.(aborted := c.aborted + {generation})
    case Publish(generation, persist, update) =>
      c.(publications := c.publications + [Publication(generation, persist, update, c.tail, Queued)], tail := Some(|c.publications|))
    case Turn(i) =>
      if Stale(c, c.publications[i]) then InPhase(c, i, Finished(false))
      else if c.publications[i].persist.Keep? then Concluded(c, i)
      else InPhase(c, i, Storing)
    case StoreDone(i) =>
      Concluded(c.(store := StoreAfter(c.store, c.publications[i].persist)), i).(writers := c.writers + [i])
    case StoreFails(i) => InPhase(c, i, Failed)
    case TailSettled => c.(tail := None)
  }

  // ---------------------------------------------------------------- what every run keeps

  predicate AllOver(c: Catalogue, before: nat) {
    forall j :: 0 <= j < before ==> Over(c, j)
  }

  /** Each publication awaits the one before it, and none starts before that is over. */
  predicate Chained(c: Catalogue) {
    && (forall i :: 0 <= i < |c.publications| && c.publications[i].previous.Some? ==> c.publications[i].previous.value + 1 == i)
    && (forall i :: 0 <= i < |c.publications| && (c.publications[i].previous.None? || !c.publications[i].phase.Queued?) ==> AllOver(c, i))
    && (c.tail.Some? ==> c.tail.value + 1 == |c.publications|)
    && (c.tail.None? ==> AllOver(c, |c.publications|))
  }

  /** Memory changes in the order of generations, none ahead of the current one. */
  ghost predicate Ordered(c: Catalogue) {
    && (forall k :: 0 <= k < |c.applied| ==> c.applied[k] < |c.publications| && c.publications[c.applied[k]].phase == Finished(true))
    && (forall i :: 0 <= i < |c.publications| ==> c.publications[i].generation <= c.generation)
    && (forall k, l :: 0 <= k < l < |c.applied| ==>
          c.publications[c.applied[k]].generation <= c.publications[c.applied[l]].generation && c.applied[k] < c.applied[l])
    && (forall i :: 0 <= i < |c.publications| && c.publications[i].phase == Finished(true) ==> i in c.applied)
  }

  /** The store is what its last writer persisted, and its writers came in the order of generations. */
  ghost predicate Written(c: Catalogue) {
    && (c.writers != [] ==>
          && c.writers[|c.writers| - 1] < |c.publications|
          && !c.publications[c.writers[|c.writers| - 1]].persist.Keep?
          && c.store == StoreAfter(None, c.publications[c.writers[|c.writers| - 1]].persist))
    && (forall k :: 0 <= k < |c.writers| ==> Over(c, c.writers[k]))
    && (forall k, l :: 0 <= k < l < |c.writers| ==>
          c.writers[k] < c.writers[l] && c.publications[c.writers[k]].generation <= c.publications[c.writers[l]].generation)
    && (forall k, i :: 0 <= k < |c.writers| && 0 <= i < |c.publications| && c.publications[i].phase.Storing? ==>
          c.publications[c.writers[k]].generation <= c.publications[i].generation)
  }

  ghost predicate Inv(c: Catalogue) {
    Chained(c) && Ordered(c) && Written(c)
  }

  /** Store operations of a provider never overlap. */
  lemma OneStoring(c: Catalogue, i: nat, j: nat)
    requires Chained(c) && i < |c.publications| && j < |c.publications|
    requires c.publications[i].phase.Storing? && c.publications[j].phase.Storing?
    ensures i == j
  {
    assert AllOver(c, i) && AllOver(c, j);
    assert i < j ==> Over(c, i);
    assert j < i ==> Over(c, j);
  }

  lemma TurnIsFirst(c: Catalogue, i: nat)
    requires Chained(c) && i < |c.publications| && !Over(c, i)
    requires c.publications[i].previous.Some? && c.publications[i].phase.Queued? ==> Over(c, c.publications[i].previous.value)
    ensures AllOver(c, i) && forall j :: i < j < |c.publications| ==> c.publications[j].phase.Queued?
  {
    if c.publications[i].phase.Queued? && c.publications[i].previous.Some? {
      assert AllOver(c, i - 1);
    }
    forall j | i < j < |c.publications| ensures c.publications[j].phase.Queued? {
      assert !c.publications[j].phase.Queued? ==> AllOver(c, j);
    }
  }

  /** The phase of the first publication that is not over changes. */
  lemma PhaseChained(c: Catalogue, i: nat, phase: Phase)
    requires Chained(c) && i < |c.publications| && !Over(c, i) && AllOver(c, i)
    ensures Chained(InPhase(c, i, phase))
  {
    var q := InPhase(c, i, phase);
    assert forall j :: 0 <= j < |c.publications| && j != i ==> Over(q, j) == Over(c, j);
    forall k | 0 <= k < |q.publications| && (q.publications[k].previous.None? || !q.publications[k].phase.Queued?) ensures AllOver(q, k) {
      if k != i { assert AllOver(c, k); }
    }
    assert c.tail.None? ==> Over(c, i);
  }

  lemma ConcludedKeeps(c: Catalogue, i: nat)
    requires Chained(c) && Ordered(c) && i < |c.publications| && !Over(c, i) && AllOver(c, i)
    requires forall j :: i < j < |c.publications| ==> c.publications[j].phase.Queued?
    ensures Chained(Concluded(c, i)) && Ordered(Concluded(c, i))
  {
    var stale := Stale(c, c.publications[i]);
    PhaseChained(c, i, Finished(!stale));
    ConcludedOrdered(c, i);
    SameChain(InPhase(c, i, Finished(!stale)), Concluded(c, i));
    hide Chained, Ordered, AllOver;
  }

  /** Concluding a publication that stores nothing, or whose store operation is not counted yet. */
  lemma ConcludedWritten(c: Catalogue, i: nat)
    requires Written(c) && i < |c.publications| && !Over(c, i)
    ensures Written(Concluded(c, i))
  {
    assert forall j :: 0 <= j < |c.publications| && j != i ==> Concluded(c, i).publications[j] == c.publications[j];
    hide Stale;
  }

  lemma SameChain(c: Catalogue, q: Catalogue)
    requires Chained(c) && q.publications == c.publications && q.tail == c.tail
    ensures Chained(q)
  {
    assert forall j :: Over(q, j) == Over(c, j);
    assert forall k :: AllOver(q, k) == AllOver(c, k);
  }

  lemma ConcludedOrdered(c: Catalogue, i: nat)
    requires Ordered(c) && i < |c.publications| && !Over(c, i)
    requires forall j :: i < j < |c.publications| ==> c.publications[j].phase.Queued?
    ensures Ordered(Concluded(c, i))
  {
    if Stale(c, c.publications[i]) { PhaseOrdered(c, i, Finished(false)); } else { AppliedOrdered(c, i); }
  }

  lemma AppliedOrdered(c: Catalogue, i: nat)
    requires Ordered(c) && i < |c.publications| && !Over(c, i) && !Stale(c, c.publications[i])
    requires forall j :: i < j < |c.publications| ==> c.publications[j].phase.Queued?
    ensures Ordered(Concluded(c, i))
  {
    var q := Concluded(c, i);
    assert forall k :: 0 <= k < |c.applied| ==> c.applied[k] < i;
    assert q.applied == c.applied + [i] && q.applied[|c.applied|] == i;
    assert forall j :: 0 <= j < |c.publications| ==> q.publications[j].generation == c.publications[j].generation;
    assert forall j :: 0 <= j < |c.publications| && j != i ==> q.publications[j] == c.publications[j];
    assert forall j :: j in c.applied ==> j in q.applied;
    hide Stale;
  }

  lemma PhaseOrdered(c: Catalogue, i: nat, phase: Phase)
    requires Ordered(c) && i < |c.publications| && !Over(c, i) && phase != Finished(true)
    ensures Ordered(InPhase(c, i, phase))
  {
  }

  lemma PhaseKeeps(c: Catalogue, i: nat, phase: Phase)
    requires Inv(c) && i < |c.publications| && !Over(c, i) && AllOver(c, i) && phase != Finished(true)
    requires phase.Storing? ==> c.publications[i].generation == c.generation
    ensures Inv(InPhase(c, i, phase))
  {
    PhaseChained(c, i, phase);
    PhaseOrdered(c, i, phase);
    PhaseWritten(c, i, phase);
    hide Chained, Ordered, Written;
  }

  lemma PhaseWritten(c: Catalogue, i: nat, phase: Phase)
    requires Written(c) && Ordered(c) && i < |c.publications| && !Over(c, i)
    requires phase.Storing? ==> c.publications[i].generation == c.generation
    ensures Written(InPhase(c, i, phase))
  {
    var q := InPhase(c, i, phase);
    forall k | 0 <= k < |c.writers|
      ensures c.writers[k] < |c.publications| && q.publications[c.writers[k]] == c.publications[c.writers[k]] && Over(q, c.writers[k])
      ensures c.publications[c.writers[k]].generation <= c.generation
    {
      assert Over(c, c.writers[k]);
    }
    forall k, j | 0 <= k < |c.writers| && 0 <= j < |c.publications| && q.publications[j].phase.Storing?
      ensures q.publications[q.writers[k]].generation <= q.publications[j].generation
    {
      if j != i { assert q.publications[j] == c.publications[j]; }
    }
    hide Ordered, Over;
  }

  /** Later publications do not matter to what was written. */
  lemma SameWritten(c: Catalogue, q: Catalogue)
    requires Written(c) && c.publications <= q.publications && q.store == c.store && q.writers == c.writers
    requires forall i :: |c.publications| <= i < |q.publications| ==> q.publications[i].phase.Queued?
    ensures Written(q)
  {
    assert forall i :: 0 <= i < |c.publications| ==> q.publications[i] == c.publications[i];
  }

  lemma PublishKeeps(c: Catalogue, generation: nat, persist: Persist, update: Option<Models>)
    requires Inv(c) && generation <= c.generation
    ensures Inv(Next(c, Publish(generation, persist, update)))
  {
    var q := Next(c, Publish(generation, persist, update));
    SameWritten(c, q);
    PublishOrdered(c, generation, persist, update);
    PublishChained(c, generation, persist, update);
    hide Written, Ordered, Chained;
  }

  lemma PublishOrdered(c: Catalogue, generation: nat, persist: Persist, update: Option<Models>)
    requires Ordered(c) && generation <= c.generation
    ensures Ordered(Next(c, Publish(generation, persist, update)))
  {
  }

  lemma PublishChained(c: Catalogue, generation: nat, persist: Persist, update: Option<Models>)
    requires Chained(c) && generation <= c.generation
    ensures Chained(Next(c, Publish(generation, persist, update)))
  {
    var q := Next(c, Publish(generation, persist, update));
    assert forall j :: 0 <= j < |c.publications| ==> Over(q, j) == Over(c, j);
    forall k | 0 <= k < |q.publications| && (q.publications[k].previous.None? || !q.publications[k].phase.Queued?) ensures AllOver(q, k) {
      assert AllOver(c, k);
    }
  }

  lemma StoredKeeps(c: Catalogue, i: nat)
    requires Inv(c) && Enabled(c, StoreDone(i)) && !c.publications[i].persist.Keep?
    ensures Inv(Next(c, StoreDone(i)))
  {
    TurnIsFirst(c, i);
    var stored := c.(store := StoreAfter(c.store, c.publications[i].persist));
    assert forall j :: Over(stored, j) == Over(c, j);
    ConcludedKeeps(stored, i);
    SameChain(Concluded(stored, i), Next(c, StoreDone(i)));
    StoredWritten(c, stored, i);
    hide Chained, Written;
  }

  lemma StoredWritten(c: Catalogue, stored: Catalogue, i: nat)
    requires Written(c) && i < |c.publications| && c.publications[i].phase.Storing? && !c.publications[i].persist.Keep?
    requires AllOver(c, i) && forall j :: i < j < |c.publications| ==> c.publications[j].phase.Queued?
    requires stored == c.(store := StoreAfter(c.store, c.publications[i].persist))
    ensures Written(Concluded(stored, i).(writers := c.writers + [i]))
  {
    var q := Concluded(stored, i).(writers := c.writers + [i]);
    assert forall j :: 0 <= j < |c.publications| && j != i ==> q.publications[j] == c.publications[j];
    assert q.publications[i] == c.publications[i].(phase := q.publications[i].phase) && Over(q, i);
    hide Stale;
    assert q.writers[|c.writers|] == i && q.store == StoreAfter(None, q.publications[i].persist);
    forall k | 0 <= k < |c.writers|
      ensures q.writers[k] == c.writers[k] && c.writers[k] < i && Over(q, q.writers[k])
      ensures q.publications[q.writers[k]].generation <= q.publications[i].generation
    {
      assert Over(c, c.writers[k]);
    }
    forall j | 0 <= j < |q.publications| ensures !q.publications[j].phase.Storing? {
      if j < i { assert Over(c, j); }
    }
  }

  /** Only what has something to store is storing. */
  predicate Storers(c: Catalogue) {
    forall i :: 0 <= i < |c.publications| && c.publications[i].phase.Storing? ==> !c.publications[i].persist.Keep?
  }

  lemma StorersKept(c: Catalogue, step: Step)
    requires Storers(c) && Enabled(c, step)
    ensures Storers(Next(c, step))
  {
  }

  lemma FailsKeeps(c: Catalogue, i: nat)
    requires Inv(c) && Enabled(c, StoreFails(i))
    ensures Inv(Next(c, StoreFails(i)))
  {
    TurnIsFirst(c, i);
    PhaseKeeps(c, i, Failed);
    hide Inv;
  }

  lemma NextKeeps(c: Catalogue, step: Step)
    requires Inv(c) && Storers(c) && Enabled(c, step)
    ensures Inv(Next(c, step)) && Storers(Next(c, step))
  {
    StorersKept(c, step);
    hide Inv, Next;
    match step
    case Publish(generation, persist, update) => PublishKeeps(c, generation, persist, update);
    case Turn(i) => TurnKeeps(c, i);
    case StoreDone(i) => StoredKeeps(c, i);
    case StoreFails(i) => FailsKeeps(c, i);
    case _ => AsideKeeps(c, step);
  }

  lemma TurnKeeps(c: Catalogue, i: nat)
    requires Inv(c) && Enabled(c, Turn(i))
    ensures Inv(Next(c, Turn(i)))
  {
    TurnIsFirst(c, i);
    hide Chained, Ordered, Written;
    if Stale(c, c.publications[i]) {
      PhaseKeeps(c, i, Finished(false));
    } else if c.publications[i].persist.Keep? {
      ConcludedKeeps(c, i);
      ConcludedWritten(c, i);
    } else {
      PhaseKeeps(c, i, Storing);
    }
  }

  lemma AsideKeeps(c: Catalogue, step: Step)
    requires Inv(c) && Enabled(c, step)
    requires step.Supersede? || step.Begin? || step.EndRefresh? || step.AbortCaller? || step.TailSettled?
    ensures Inv(Next(c, step)) && Next(c, step).publications == c.publications
  {
    var q := Next(c, step);
    if step.TailSettled? { TailOver(c); }
    SameWritten(c, q);
    SameOrdered(c, q);
    hide Written, Ordered, Superseded;
    SameChain(c, q.(tail := c.tail));
    if step.TailSettled? { NoTail(q.(tail := c.tail)); }
  }

  lemma SameOrdered(c: Catalogue, q: Catalogue)
    requires Ordered(c) && q.publications == c.publications && q.applied == c.applied && q.generation >= c.generation
    ensures Ordered(q)
  {
  }

  lemma TailOver(c: Catalogue)
    requires Chained(c) && c.tail.Some? && Over(c, c.tail.value)
    ensures AllOver(c, |c.publications|)
  {
    assert c.publications[c.tail.value].phase.Queued? || AllOver(c, c.tail.value);
  }

  lemma NoTail(c: Catalogue)
    requires Chained(c) && AllOver(c, |c.publications|)
    ensures Chained(c.(tail := None))
  {
    var q := c.(tail := None);
    assert forall j :: Over(q, j) == Over(c, j);
    assert forall k :: AllOver(q, k) == AllOver(c, k);
  }

  // ---------------------------------------------------------------- runs

  function Start(): Catalogue {
    Catalogue(0, None, {}, [], None, None, [], [], [])
  }

  lemma StartKeeps()
    ensures Inv(Start()) && Storers(Start())
  {
  }

  function RunAll(c: Catalogue, steps: seq<Step>): Option<Catalogue>
    decreases |steps|
  {
    if steps == [] then Some(c)
    else if Enabled(c, steps[0]) then RunAll(Next(c, steps[0]), steps[1..])
    else None
  }

  lemma {:induction false} RunKeeps(c: Catalogue, steps: seq<Step>)
    requires Inv(c) && Storers(c) && RunAll(c, steps).Some?
    ensures Inv(RunAll(c, steps).value) && Storers(RunAll(c, steps).value)
    decreases |steps|
  {
    hide Inv, Next, Storers;
    if steps != [] {
      NextKeeps(c, steps[0]);
      RunKeeps(Next(c, steps[0]), steps[1..]);
    }
  }

  ghost predicate NoOverlap(c: Catalogue) {
    forall i, j :: 0 <= i < j < |c.publications| ==> !(c.publications[i].phase.Storing? && c.publications[j].phase.Storing?)
  }

  /**
   In every interleaving: store operations never overlap; memory changes in queue order, so generations never
   decrease; and the store is what its last writer persisted, its writers also in the order of generations.
   */
  lemma CatalogueRuns(steps: seq<Step>)
    requires RunAll(Start(), steps).Some?
    ensures var c := RunAll(Start(), steps).value; Written(c) && NoOverlap(c) && Ordered(c)
  {
    hide RunAll;
    StartKeeps();
    hide Ordered, Written, Start;
    RunKeeps(Start(), steps);
    AllApart(RunAll(Start(), steps).value);
    hide Chained, NoOverlap;
  }

  lemma AllApart(c: Catalogue)
    requires Chained(c)
    ensures NoOverlap(c)
  {
    forall i, j | 0 <= i < j < |c.publications| ensures !(c.publications[i].phase.Storing? && c.publications[j].phase.Storing?) {
      if c.publications[i].phase.Storing? && c.publications[j].phase.Storing? { OneStoring(c, i, j); }
    }
  }

  // ---------------------------------------------------------------- the object

  /** The refresh records of every provider. */
  class RefreshRecords {
    var providers: set<string>
    var generations: map<string, nat>
    /** The refresh of each provider that a newer one aborts. */
    var controllers: map<string, nat>
    var aborted: set<(string, nat)>

    function GenerationOf(id: string): nat
      reads this
    {
      if id in generations then generations[id] else 0
    }

    /** The records of one provider, as part of its catalogue. */
    function View(id: string, c: Catalogue): Catalogue
      reads this
    {
      c.(generation := GenerationOf(id), controller := if id in controllers then Some(controllers[id]) else None,
         aborted := set a | a in aborted && a.0 == id :: a.1)
    }

    ghost predicate Valid()
      reads this
    {
      forall id :: id in controllers ==> controllers[id] <= GenerationOf(id)
    }

    constructor ()
      ensures Valid() && providers == {} && generations == map[]
    {
      providers, generations, controllers, aborted := {}, map[], map[], {};
    }

    /** Other providers keep their records. */
    twostate predicate OnlyFor(id: string)
      reads this
    {
      && (forall x :: x != id ==> GenerationOf(x) == old(GenerationOf(x)) && (x in controllers <==> x in old(controllers)))
      && (forall x :: x != id && x in controllers ==> controllers[x] == old(controllers)[x])
      && (forall x, g :: x != id ==> ((x, g) in aborted <==> (x, g) in old(aborted)))
    }

    method SupersedeProviderRefresh(id: string) returns (generation: nat)
      requires Valid()
      modifies this`generations, this`controllers, this`aborted
      ensures Valid() && generation == old(GenerationOf(id)) + 1 == GenerationOf(id) && OnlyFor(id)
      ensures forall c :: View(id, c) == Superseded(old(View(id, c)))
    {
      generation := GenerationOf(id) + 1;
      generations := generations[id := generation];
      if id in controllers {
        aborted := aborted + {(id, controllers[id])};
        controllers := controllers - {id};
      }
      ghost var now, before := (set a | a in aborted && a.0 == id :: a.1), (set a | a in old(aborted) && a.0 == id :: a.1);
      forall g | g in now ensures g in before || (id in old(controllers) && g == old(controllers)[id]) {
        assert (id, g) in aborted;
      }
      forall g | g in before || (id in old(controllers) && g == old(controllers)[id]) ensures g in now {
        assert (id, g) in aborted;
      }
      assert now == before + if id in old(controllers) then {old(controllers)[id]} else {};
    }

    method BeginProviderRefresh(id: string) returns (generation: nat)
      requires Valid()
      modifies this`generations, this`controllers, this`aborted
      ensures Valid() && OnlyFor(id)
      ensures forall c :: View(id, c) == Next(old(View(id, c)), Begin)
    {
      generation := SupersedeProviderRefresh(id);
      controllers := controllers[id := generation];
    }
  }
}
