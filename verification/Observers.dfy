/**
 Who observes the sources of an object: an event is queued for the listeners subscribed when a revision is adopted,
 and delivered to those of them that are subscribed then.  Listeners write, subscribe and unsubscribe whenever they run.
 */
module Observers {
  import opened Schemas
  import opened Ids
  import opened Cells
  import opened CellObjects

  /** `to`: who is still to hear of the revision; the first event of the queue is the one being delivered. */
  datatype Notice = Notice(source: nat, revision: nat, to: seq<nat>)

  /** Whose calls: a listener of a source. */
  datatype Key = Key(source: nat, listener: nat)

  /**
   `history`: the revisions each source adopted.  `calls`: the revisions a listener was called with since it last
   subscribed, its snapshot first.
   */
  datatype Fanouts = Fanouts(history: map<nat, seq<Json>>, listeners: map<nat, seq<nat>>, queue: seq<Notice>, calls: map<Key, seq<nat>>)

  datatype Step =
    | Emit(source: nat, value: Json)
    | Subscribe(source: nat, listener: nat)
    | Unsubscribe(source: nat, listener: nat)
    | Deliver

  function Listeners(f: Fanouts, s: nat): seq<nat> {
    if s in f.listeners then f.listeners[s] else []
  }

  function Calls(f: Fanouts, k: Key): seq<nat> {
    if k in f.calls then f.calls[k] else []
  }

  predicate Enabled(f: Fanouts, step: Step) {
    match step
    case Emit(s, _) => s in f.history
    case Subscribe(s, _) => s in f.history && f.history[s] != []
    case Unsubscribe(s, _) => s in f.history
    case Deliver => f.queue != []
  }

  /** The next listener of the event in delivery is called if it is subscribed now. */
  function Delivered(f: Fanouts): Fanouts
    requires f.queue != []
  {
    var event := f.queue[0];
    if event.to == [] then f.(queue := f.queue[1..])
    else
      var k := Key(event.source, event.to[0]);
      f.(queue := f.queue[0 := event.(to := event.to[1..])],
         calls := if event.to[0] in Listeners(f, event.source) then f.calls[k := Calls(f, k) + [event.revision]] else f.calls)
  }

  function Next(f: Fanouts, step: Step): Fanouts
    requires Enabled(f, step)
  {
    match step
    case Emit(s, value) =>
      f.(history := f.history[s := f.history[s] + [value]], queue := f.queue + [Notice(s, |f.history[s]|, Listeners(f, s))])
    case Subscribe(s, l) =>
      f.(listeners := f.listeners[s := Listeners(f, s) + if l in Listeners(f, s) then [] else [l]],
         calls := f.calls[Key(s, l) := [|f.history[s]| - 1]])
    case Unsubscribe(s, l) => f.(listeners := f.listeners[s := Without(Listeners(f, s), l)])
    case Deliver => Delivered(f)
  }

  // ---------------------------------------------------------------- letting the queue run dry

  function Size(queue: seq<Notice>): nat {
    if queue == [] then 0 else 1 + |queue[0].to| + Size(queue[1..])
  }

  /** Everything that waits is delivered, and nobody does anything else. */
  function Dry(f: Fanouts): Fanouts
    decreases Size(f.queue)
  {
    if f.queue == [] then f
    else
      assert f.queue[0].to != [] ==> Delivered(f).queue[1..] == f.queue[1..];
      Dry(Delivered(f))
  }

  /** A snapshot and then every later revision, in order and none missing, up to the current one. */
  predicate InOrder(calls: seq<nat>, current: nat) {
    && calls != [] && calls[|calls| - 1] == current
    && forall i :: 0 <= i < |calls| ==> calls[i] == calls[0] + i
  }

  predicate Subscribed(f: Fanouts, k: Key) {
    k.source in f.history && f.history[k.source] != [] && k.listener in Listeners(f, k.source)
  }

  function Current(f: Fanouts, k: Key): nat
    requires Subscribed(f, k)
  {
    |f.history[k.source]| - 1
  }

  /** Once what waits is delivered, every subscribed listener was called in order. */
  ghost predicate OrderedWhenDry(f: Fanouts) {
    forall k :: Subscribed(f, k) ==> InOrder(Calls(Dry(f), k), Current(f, k))
  }

  // ---------------------------------------------------------------- what waits for a listener

  /** The revisions that wait for a listener. */
  function Waits(queue: seq<Notice>, k: Key): seq<nat> {
    if queue == [] then []
    else (if queue[0].source == k.source && k.listener in queue[0].to then [queue[0].revision] else []) + Waits(queue[1..], k)
  }

  ghost predicate Inv(f: Fanouts) {
    && (forall s :: s in f.listeners ==> Distinct(f.listeners[s]) && s in f.history)
    && (forall s :: s in f.history ==> f.history[s] != [])
    && (forall i :: 0 <= i < |f.queue| ==>
          Distinct(f.queue[i].to) && f.queue[i].source in f.history && f.queue[i].revision < |f.history[f.queue[i].source]|)
  }

  lemma {:induction false} WaitsAppend(queue: seq<Notice>, event: Notice, k: Key)
    ensures Waits(queue + [event], k)
         == Waits(queue, k) + if event.source == k.source && k.listener in event.to then [event.revision] else []
    decreases |queue|
  {
    if queue == [] {
      assert ([] + [event])[1..] == [];
    } else {
      assert (queue + [event])[0] == queue[0] && (queue + [event])[1..] == queue[1..] + [event];
      WaitsAppend(queue[1..], event, k);
    }
  }

  lemma {:induction false} WaitsBelow(f: Fanouts, queue: seq<Notice>, k: Key)
    requires k.source in f.history
    requires forall i :: 0 <= i < |queue| && queue[i].source == k.source ==> queue[i].revision < |f.history[k.source]|
    ensures forall i :: 0 <= i < |Waits(queue, k)| ==> Waits(queue, k)[i] < |f.history[k.source]|
    decreases |queue|
  {
    if queue != [] {
      assert forall i :: 0 <= i < |queue[1..]| ==> queue[1..][i] == queue[i + 1];
      WaitsBelow(f, queue[1..], k);
    }
  }

  /** What a listener will have been called with. */
  function Due(f: Fanouts, k: Key): seq<nat> {
    Calls(f, k) + Waits(f.queue, k)
  }

  lemma DeliveredInv(f: Fanouts)
    requires Inv(f) && f.queue != []
    ensures Inv(Delivered(f)) && Delivered(f).history == f.history && Delivered(f).listeners == f.listeners
  {
    var event := f.queue[0];
    assert event.to != [] ==> forall i :: 0 <= i < |event.to[1..]| ==> event.to[1..][i] == event.to[i + 1];
  }

  lemma DeliveredSize(f: Fanouts)
    requires f.queue != []
    ensures Size(Delivered(f).queue) < Size(f.queue)
  {
    if f.queue[0].to != [] { assert Delivered(f).queue[1..] == f.queue[1..]; }
  }

  /** One listener less waits; the others of the event wait as before. */
  lemma WaitsNext(queue: seq<Notice>, k: Key)
    requires queue != [] && Distinct(queue[0].to)
    ensures var event := queue[0];
            if event.to == [] then Waits(queue, k) == Waits(queue[1..], k)
            else Waits(queue, k) == (if k == Key(event.source, event.to[0]) then [event.revision] else [])
                                    + Waits(queue[0 := event.(to := event.to[1..])], k)
  {
    var event := queue[0];
    if event.to != [] {
      var next := queue[0 := event.(to := event.to[1..])];
      assert next[1..] == queue[1..];
      assert event.to[0] !in event.to[1..] by { assert forall i :: 0 <= i < |event.to[1..]| ==> event.to[1..][i] == event.to[i + 1]; }
      assert forall x :: x in event.to <==> x == event.to[0] || x in event.to[1..];
    }
  }

  lemma DeliveredCalls(f: Fanouts, k: Key)
    requires f.queue != [] && Subscribed(f, k)
    ensures var event := f.queue[0];
            && Delivered(f).queue == (if event.to == [] then f.queue[1..] else f.queue[0 := event.(to := event.to[1..])])
            && Calls(Delivered(f), k)
               == Calls(f, k) + if event.to != [] && k == Key(event.source, event.to[0]) then [event.revision] else []
  {
  }

  /** Delivering changes nothing of what a subscribed listener is due. */
  lemma DeliveredDue(f: Fanouts, k: Key)
    requires Inv(f) && f.queue != [] && Subscribed(f, k)
    ensures Inv(Delivered(f)) && Subscribed(Delivered(f), k) && Due(Delivered(f), k) == Due(f, k)
    ensures Size(Delivered(f).queue) < Size(f.queue)
  {
    DeliveredInv(f);
    DeliveredSize(f);
    DeliveredCalls(f, k);
    WaitsNext(f.queue, k);
    hide Inv, Size, Waits, Delivered, Calls;
    var event := f.queue[0];
    var own := if event.to != [] && k == Key(event.source, event.to[0]) then [event.revision] else [];
    InTurn(Calls(f, k), own, Waits(Delivered(f).queue, k));
    assert Waits(f.queue, k) == own + Waits(Delivered(f).queue, k);
  }

  lemma InTurn(calls: seq<nat>, own: seq<nat>, waits: seq<nat>)
    ensures (calls + own) + waits == calls + (own + waits)
  {
  }

  lemma {:induction false} DryCalls(f: Fanouts, k: Key)
    requires Inv(f) && Subscribed(f, k)
    ensures Calls(Dry(f), k) == Due(f, k)
    decreases Size(f.queue)
  {
    if f.queue == [] {
      assert Calls(f, k) + [] == Calls(f, k);
    } else {
      DeliveredDue(f, k);
      hide Delivered, Inv, Due, Calls, Subscribed;
      DryCalls(Delivered(f), k);
    }
  }

  ghost predicate AllDue(f: Fanouts) {
    forall k :: Subscribed(f, k) ==> InOrder(Due(f, k), Current(f, k))
  }

  lemma OrderedIsDue(f: Fanouts)
    requires Inv(f)
    ensures OrderedWhenDry(f) <==> AllDue(f)
  {
    forall k | Subscribed(f, k) ensures Calls(Dry(f), k) == Due(f, k) { DryCalls(f, k); }
    hide Dry, Due, Calls, InOrder, Inv;
  }

  /** Whatever a listener was called with so far begins what it will have been called with. */
  lemma CalledInOrder(f: Fanouts, k: Key)
    requires Inv(f) && OrderedWhenDry(f) && Subscribed(f, k)
    ensures Calls(f, k) <= Calls(Dry(f), k)
    ensures forall i :: 0 <= i < |Calls(f, k)| ==> Calls(f, k)[i] == Calls(f, k)[0] + i
  {
    DryCalls(f, k);
    assert InOrder(Due(f, k), Current(f, k));
    assert forall i :: 0 <= i < |Calls(f, k)| ==> Calls(f, k)[i] == Due(f, k)[i];
    hide Dry;
  }

  // ---------------------------------------------------------------- exactly when observers are in order

  /** A listener subscribes while an event that was queued for it waits. */
  predicate Stale(f: Fanouts, step: Step) {
    step.Subscribe? && Waits(f.queue, Key(step.source, step.listener)) != []
  }

  lemma InOrderGrows(calls: seq<nat>, current: nat)
    requires InOrder(calls, current)
    ensures InOrder(calls + [current + 1], current + 1)
  {
  }

  lemma EmitInv(f: Fanouts, s: nat, value: Json)
    requires Inv(f) && s in f.history
    ensures Inv(Next(f, Emit(s, value)))
  {
  }

  /** A new revision is due to the listeners of its source, after all that was. */
  lemma EmittedDue(f: Fanouts, s: nat, value: Json, k: Key)
    requires s in f.history && Subscribed(f, k)
    ensures var q := Next(f, Emit(s, value));
            Subscribed(q, k) && Due(q, k) == Due(f, k) + if s == k.source then [|f.history[s]|] else []
  {
    var event := Notice(s, |f.history[s]|, Listeners(f, s));
    WaitsAppend(f.queue, event, k);
    var own := if s == k.source then [|f.history[s]|] else [];
    InTurn(Calls(f, k), Waits(f.queue, k), own);
    hide Waits;
  }

  lemma EmitDue(f: Fanouts, s: nat, value: Json)
    requires Inv(f) && AllDue(f) && s in f.history
    ensures Inv(Next(f, Emit(s, value))) && AllDue(Next(f, Emit(s, value)))
  {
    EmitInv(f, s, value);
    var q := Next(f, Emit(s, value));
    hide Inv, InOrder, Due;
    forall k | Subscribed(q, k) ensures InOrder(Due(q, k), Current(q, k)) {
      assert Subscribed(f, k) && InOrder(Due(f, k), Current(f, k));
      EmittedDue(f, s, value, k);
      if s == k.source {
        InOrderGrows(Due(f, k), Current(f, k));
      } else {
        assert Due(q, k) == Due(f, k) + [];
      }
    }
  }

  lemma SubscribeDue(f: Fanouts, s: nat, l: nat)
    requires Inv(f) && AllDue(f) && Enabled(f, Subscribe(s, l))
    ensures AllDue(Next(f, Subscribe(s, l))) <==> !Stale(f, Subscribe(s, l))
  {
    var q, own := Next(f, Subscribe(s, l)), Key(s, l);
    SubscribedDue(f, s, l);
    if Stale(f, Subscribe(s, l)) {
      StaleDisorder(f, s, l);
    } else {
      forall k | Subscribed(q, k) ensures InOrder(Due(q, k), Current(q, k)) {
        if k != own { assert Subscribed(f, k) && Due(q, k) == Due(f, k); }
      }
    }
    hide Inv, Due, InOrder;
  }

  lemma SubscribedDue(f: Fanouts, s: nat, l: nat)
    requires Enabled(f, Subscribe(s, l))
    ensures var q, own := Next(f, Subscribe(s, l)), Key(s, l);
            Subscribed(q, own) && Due(q, own) == [|f.history[s]| - 1] + Waits(f.queue, own)
  {
  }

  /** An event that waits is of a revision the snapshot has. */
  lemma StaleDisorder(f: Fanouts, s: nat, l: nat)
    requires Inv(f) && Enabled(f, Subscribe(s, l)) && Stale(f, Subscribe(s, l))
    ensures !InOrder([|f.history[s]| - 1] + Waits(f.queue, Key(s, l)), |f.history[s]| - 1)
  {
    var waits := Waits(f.queue, Key(s, l));
    WaitsBelow(f, f.queue, Key(s, l));
    assert ([|f.history[s]| - 1] + waits)[1] == waits[0];
  }

  lemma UnsubscribeDue(f: Fanouts, s: nat, l: nat)
    requires Inv(f) && AllDue(f) && s in f.history
    ensures Inv(Next(f, Unsubscribe(s, l))) && AllDue(Next(f, Unsubscribe(s, l)))
  {
    var q := Next(f, Unsubscribe(s, l));
    forall k | Subscribed(q, k) ensures InOrder(Due(q, k), Current(q, k)) {
      assert Subscribed(f, k) && Due(q, k) == Due(f, k);
    }
  }

  lemma DeliverDue(f: Fanouts)
    requires Inv(f) && AllDue(f) && f.queue != []
    ensures Inv(Delivered(f)) && AllDue(Delivered(f))
  {
    DeliveredInv(f);
    hide Delivered, Due, InOrder, Inv;
    forall k | Subscribed(Delivered(f), k) ensures InOrder(Due(Delivered(f), k), Current(Delivered(f), k)) {
      assert Subscribed(f, k) && InOrder(Due(f, k), Current(f, k));
      DeliveredDue(f, k);
    }
  }

  lemma StepDue(f: Fanouts, step: Step)
    requires Inv(f) && AllDue(f) && Enabled(f, step)
    ensures Inv(Next(f, step)) && (AllDue(Next(f, step)) <==> !Stale(f, step))
  {
    match step
    case Emit(s, value) => EmitDue(f, s, value);
    case Subscribe(s, l) => SubscribeDue(f, s, l); StepInv(f, step);
    case Unsubscribe(s, l) => UnsubscribeDue(f, s, l);
    case Deliver => DeliverDue(f);
    hide Inv, AllDue, Next;
  }

  predicate IsRun(f: Fanouts, steps: seq<Step>)
    decreases |steps|
  {
    steps == [] || (Enabled(f, steps[0]) && IsRun(Next(f, steps[0]), steps[1..]))
  }

  function End(f: Fanouts, steps: seq<Step>): Fanouts
    requires IsRun(f, steps)
    decreases |steps|
  {
    if steps == [] then f else End(Next(f, steps[0]), steps[1..])
  }

  /** In every state of the run. */
  ghost predicate OrderedRun(f: Fanouts, steps: seq<Step>)
    requires IsRun(f, steps)
    decreases |steps|
  {
    OrderedWhenDry(f) && (steps == [] || OrderedRun(Next(f, steps[0]), steps[1..]))
  }

  predicate NeverStale(f: Fanouts, steps: seq<Step>)
    requires IsRun(f, steps)
    decreases |steps|
  {
    steps == [] || (!Stale(f, steps[0]) && NeverStale(Next(f, steps[0]), steps[1..]))
  }

  lemma {:induction false} OrderedFrom(f: Fanouts, steps: seq<Step>)
    requires Inv(f) && OrderedWhenDry(f) && IsRun(f, steps)
    ensures OrderedRun(f, steps) <==> NeverStale(f, steps)
    decreases |steps|
  {
    if steps != [] {
      var next := Next(f, steps[0]);
      OrderedIsDue(f);
      StepDue(f, steps[0]);
      OrderedIsDue(next);
      hide Next, Inv, AllDue, OrderedWhenDry, Stale;
      if OrderedWhenDry(next) { OrderedFrom(next, steps[1..]); }
    }
  }

  /** Sources with a first value each, and nobody subscribed. */
  function Unobserved(values: map<nat, Json>): Fanouts {
    Fanouts(map s | s in values :: [values[s]], map[], [], map[])
  }

  /**
   The exact condition, over every run with writes, subscriptions and deliveries in any order: in every state each
   subscribed listener will have been called with its snapshot and then exactly the later revisions, in order, if and
   only if nobody subscribed while an event that was queued for it waited.
   */
  lemma ObserversInOrder(values: map<nat, Json>, steps: seq<Step>)
    requires IsRun(Unobserved(values), steps)
    ensures OrderedRun(Unobserved(values), steps) <==> NeverStale(Unobserved(values), steps)
  {
    OrderedFrom(Unobserved(values), steps);
  }

  // ---------------------------------------------------------------- a listener left behind

  lemma {:induction false} RunOn(f: Fanouts, steps: seq<Step>, step: Step)
    requires IsRun(f, steps) && Enabled(End(f, steps), step)
    ensures IsRun(f, steps + [step]) && End(f, steps + [step]) == Next(End(f, steps), step)
    decreases |steps|
  {
    if steps == [] {
      assert ([] + [step])[1..] == [];
    } else {
      assert (steps + [step])[0] == steps[0] && (steps + [step])[1..] == steps[1..] + [step];
      RunOn(Next(f, steps[0]), steps[1..], step);
      hide Next;
    }
  }

  ghost predicate Reached(start: Fanouts, f: Fanouts) {
    exists steps :: IsRun(start, steps) && End(start, steps) == f
  }

  lemma OneMore(start: Fanouts, f: Fanouts, step: Step) returns (next: Fanouts)
    requires Reached(start, f) && Enabled(f, step)
    ensures next == Next(f, step) && Reached(start, next)
  {
    hide Next, Enabled;
    var steps :| IsRun(start, steps) && End(start, steps) == f;
    RunOn(start, steps, step);
    next := Next(f, step);
  }

  /** Source 0 with `v` adopted `n` times, the listeners, what waits, and the calls of listener 7. */
  predicate Scene(f: Fanouts, n: nat, listeners: seq<nat>, queue: seq<Notice>, calls: seq<nat>) {
    && f.history.Keys == {0} && |f.history[0]| == n && Listeners(f, 0) == listeners && f.queue == queue
    && Calls(f, Key(0, 7)) == calls && f.listeners.Keys <= {0}
  }

  lemma SceneEmits(f: Fanouts, n: nat, listeners: seq<nat>, queue: seq<Notice>, calls: seq<nat>, v: Json)
    requires Scene(f, n, listeners, queue, calls)
    ensures Enabled(f, Emit(0, v)) && Scene(Next(f, Emit(0, v)), n + 1, listeners, queue + [Notice(0, n, listeners)], calls)
  {
  }

  lemma SceneSubscribes(f: Fanouts, n: nat, listeners: seq<nat>, queue: seq<Notice>, calls: seq<nat>, l: nat)
    requires Scene(f, n, listeners, queue, calls) && n > 0 && l !in listeners
    ensures Enabled(f, Subscribe(0, l))
    ensures Scene(Next(f, Subscribe(0, l)), n, listeners + [l], queue, if l == 7 then [n - 1] else calls)
  {
  }

  lemma SceneUnsubscribes(f: Fanouts, n: nat, queue: seq<Notice>, calls: seq<nat>)
    requires Scene(f, n, [5, 7], queue, calls)
    ensures Enabled(f, Unsubscribe(0, 7)) && Scene(Next(f, Unsubscribe(0, 7)), n, [5], queue, calls)
  {
    assert [5, 7][1..] == [7] && [7][1..] == [];
    assert Without([7], 7) == [] && Without([5, 7], 7) == [5] + [];
  }

  lemma SceneDelivers(f: Fanouts, n: nat, calls: seq<nat>)
    requires Scene(f, n, [5], [Notice(0, 1, [5])], calls)
    ensures Enabled(f, Deliver) && Scene(Next(f, Deliver), n, [5], [Notice(0, 1, [])], calls)
  {
    assert [5][1..] == [];
  }

  lemma SceneEnds(f: Fanouts)
    requires Inv(f) && Scene(f, 4, [5, 7], [Notice(0, 1, []), Notice(0, 2, [5, 7]), Notice(0, 3, [5])], [3])
    ensures Subscribed(f, Key(0, 7)) && Current(f, Key(0, 7)) == 3 && Calls(Dry(f), Key(0, 7)) == [3, 2]
  {
    var k, queue := Key(0, 7), f.queue;
    assert queue[1..] == [Notice(0, 2, [5, 7]), Notice(0, 3, [5])];
    assert queue[1..][1..] == [Notice(0, 3, [5])] && queue[1..][1..][1..] == [];
    var last := Waits(queue[1..][1..], k);
    assert last == [] by { assert Waits(queue[1..][1..][1..], k) == []; }
    assert Waits(queue[1..], k) == [2] + last;
    assert Waits(queue, k) == [] + [2];
    DryCalls(f, k);
  }

  lemma {:induction false} RunInv(f: Fanouts, steps: seq<Step>)
    requires Inv(f) && IsRun(f, steps)
    ensures Inv(End(f, steps))
    decreases |steps|
  {
    if steps != [] {
      StepInv(f, steps[0]);
      hide Inv, Next;
      RunInv(Next(f, steps[0]), steps[1..]);
    }
  }

  lemma StepInv(f: Fanouts, step: Step)
    requires Inv(f) && Enabled(f, step)
    ensures Inv(Next(f, step))
  {
    if step.Deliver? { DeliveredInv(f); }
    hide Delivered;
  }

  /**
   It happens.  While listener 5 hears of a revision, 7 subscribes, a revision is written, 7 leaves, another is
   written and 7 comes back: it gets the newest at once and then, last, the one before.
   */
  lemma LeftBehind(v: Json)
    ensures exists f :: Reached(Unobserved(map[0 := v]), f) && Subscribed(f, Key(0, 7))
                        && Current(f, Key(0, 7)) == 3 && Calls(Dry(f), Key(0, 7)) == [3, 2]
  {
    var start := Unobserved(map[0 := v]);
    assert Inv(start) && Scene(start, 1, [], [], []);
    assert Reached(start, start) by { assert IsRun(start, []) && End(start, []) == start; }
    hide Unobserved, Scene, Next, Enabled, Inv, Reached, Dry;
    var f := SomeoneHears(start, v);
    SceneSubscribes(f, 2, [5], [Notice(0, 1, [])], [], 7);
    f := OneMore(start, f, Subscribe(0, 7));
    assert [5] + [7] == [5, 7];
    SceneEmits(f, 2, [5, 7], [Notice(0, 1, [])], [1], v);
    f := OneMore(start, f, Emit(0, v));
    assert [Notice(0, 1, [])] + [Notice(0, 2, [5, 7])] == [Notice(0, 1, []), Notice(0, 2, [5, 7])];
    ComesBack(start, f, v);
  }

  lemma SomeoneHears(start: Fanouts, v: Json) returns (f: Fanouts)
    requires Reached(start, start) && Scene(start, 1, [], [], [])
    ensures Reached(start, f) && Scene(f, 2, [5], [Notice(0, 1, [])], [])
  {
    hide Scene, Next, Enabled, Reached;
    SceneSubscribes(start, 1, [], [], [], 5);
    f := OneMore(start, start, Subscribe(0, 5));
    assert [] + [5] == [5];
    SceneEmits(f, 1, [5], [], [], v);
    f := OneMore(start, f, Emit(0, v));
    assert [] + [Notice(0, 1, [5])] == [Notice(0, 1, [5])];
    SceneDelivers(f, 2, []);
    f := OneMore(start, f, Deliver);
  }

  lemma ComesBack(start: Fanouts, f: Fanouts, v: Json)
    requires Inv(start) && Reached(start, f) && Scene(f, 3, [5, 7], [Notice(0, 1, []), Notice(0, 2, [5, 7])], [1])
    ensures exists g :: Reached(start, g) && Subscribed(g, Key(0, 7))
                        && Current(g, Key(0, 7)) == 3 && Calls(Dry(g), Key(0, 7)) == [3, 2]
  {
    hide Scene, Next, Enabled, Inv, Reached, Dry;
    var two := [Notice(0, 1, []), Notice(0, 2, [5, 7])];
    SceneUnsubscribes(f, 3, two, [1]);
    var g := OneMore(start, f, Unsubscribe(0, 7));
    SceneEmits(g, 3, [5], two, [1], v);
    g := OneMore(start, g, Emit(0, v));
    SceneSubscribes(g, 4, [5], two + [Notice(0, 3, [5])], [1], 7);
    g := OneMore(start, g, Subscribe(0, 7));
    assert [5] + [7] == [5, 7];
    assert two + [Notice(0, 3, [5])] == [Notice(0, 1, []), Notice(0, 2, [5, 7]), Notice(0, 3, [5])];
    ReachedInv(start, g);
    SceneEnds(g);
  }

  lemma ReachedInv(start: Fanouts, f: Fanouts)
    requires Inv(start) && Reached(start, f)
    ensures Inv(f)
  {
    hide Inv;
    var steps :| IsRun(start, steps) && End(start, steps) == f;
    RunInv(start, steps);
  }

  // ---------------------------------------------------------------- what a write lets observers hear

  predicate Newest(f: Fanouts, x: nat, value: Json) {
    x in f.history && f.history[x] != [] && f.history[x][|f.history[x]| - 1] == value
  }

  /** The newest revision of every source is its value. */
  predicate Agrees(f: Fanouts, nodes: map<nat, Node>) {
    f.history.Keys == nodes.Keys && forall x :: x in nodes ==> Newest(f, x, nodes[x].value)
  }

  function EmitSteps(events: seq<Event>): seq<Step> {
    if events == [] then [] else [Emit(events[0].source, events[0].value)] + EmitSteps(events[1..])
  }

  /** Only these sources get revisions. */
  predicate Otherwise(f: Fanouts, g: Fanouts, sources: seq<nat>) {
    g.history.Keys == f.history.Keys && forall x :: x in f.history && x !in sources ==> g.history[x] == f.history[x]
  }

  lemma EmittedFirst(f: Fanouts, event: Event, later: seq<Event>)
    requires Enabled(f, Emit(event.source, event.value)) && IsRun(Next(f, Emit(event.source, event.value)), EmitSteps(later))
    ensures IsRun(f, EmitSteps([event] + later))
    ensures End(f, EmitSteps([event] + later)) == End(Next(f, Emit(event.source, event.value)), EmitSteps(later))
  {
    assert ([event] + later)[1..] == later;
    var steps := EmitSteps([event] + later);
    assert steps[0] == Emit(event.source, event.value) && steps[1..] == EmitSteps(later);
  }

  lemma NewestEmitted(f: Fanouts, x: nat, value: Json)
    requires x in f.history
    ensures Newest(Next(f, Emit(x, value)), x, value) && Otherwise(f, Next(f, Emit(x, value)), [x])
  {
  }

  lemma NewestKept(f: Fanouts, g: Fanouts, sources: seq<nat>, x: nat, value: Json)
    requires Otherwise(f, g, sources) && x !in sources && Newest(f, x, value)
    ensures Newest(g, x, value)
  {
  }

  lemma OtherwiseThen(f: Fanouts, g: Fanouts, h: Fanouts, order: seq<nat>)
    requires order != [] && Otherwise(f, g, [order[0]]) && Otherwise(g, h, order[1..])
    ensures Otherwise(f, h, order)
  {
    assert forall x :: x in order <==> x == order[0] || x in order[1..];
  }

  lemma OtherwiseNow(f: Fanouts, d: nat)
    ensures Otherwise(f, f, [d])
  {
  }

  predicate AllNewest(f: Fanouts, values: map<nat, Json>, order: seq<nat>) {
    forall d :: d in order ==> d in values && Newest(f, d, values[d])
  }

  predicate AllCurrent(f: Fanouts, nodes: map<nat, Node>, order: seq<nat>) {
    forall d :: d in order ==> d in nodes && Newest(f, d, nodes[d].value)
  }

  /** What was published of the derivations brings their histories up to the candidates. */
  lemma {:induction false} ChangesObserved(f: Fanouts, nodes: map<nat, Node>, values: map<nat, Json>, order: seq<nat>)
    requires Increasing(order) && AllCurrent(f, nodes, order) && forall d :: d in order ==> d in values
    ensures var steps := EmitSteps(Changes(nodes, values, order));
            IsRun(f, steps) && Otherwise(f, End(f, steps), order) && AllNewest(End(f, steps), values, order)
    decreases |order|
  {
    if order != [] {
      FirstOf(order);
      var d, rest := order[0], order[1..];
      var event, later := Event(d, values[d]), Changes(nodes, values, rest);
      var next := if nodes[d].value != values[d] then Next(f, Emit(d, values[d])) else f;
      NewestEmitted(f, d, values[d]);
      OtherwiseNow(f, d);
      assert Changes(nodes, values, order) == if nodes[d].value != values[d] then [event] + later else later;
      hide Next, Changes, Otherwise, Newest, Increasing, EmitSteps, IsRun, End;
      forall x | x in rest ensures Newest(next, x, nodes[x].value) { NewestKept(f, next, [d], x, nodes[x].value); }
      ChangesObserved(next, nodes, values, rest);
      var end := End(next, EmitSteps(later));
      OtherwiseThen(f, next, end, order);
      NewestKept(next, end, rest, d, values[d]);
      if nodes[d].value != values[d] { EmittedFirst(f, event, later); }
    }
  }

  /**
   The notifications of a write are revisions of the sources it changed, in adoption order, and after them the newest
   revision of every source is its adopted value.
   */
  lemma WriteObserved(f: Fanouts, nodes: map<nat, Node>, x: nat, value: Json, order: seq<nat>, values: map<nat, Json>)
    requires Agrees(f, nodes) && x in nodes && x !in order && Increasing(order)
    requires (forall d :: d in order ==> d in nodes) && (forall y :: y in values <==> y == x || y in order) && values[x] == value
    ensures var steps := EmitSteps([Event(x, value)] + Changes(nodes, values, order));
            IsRun(f, steps) && Agrees(End(f, steps), Adopt(nodes, values))
  {
    hide Next, Changes, Increasing, Otherwise, Newest, EmitSteps, IsRun, End, AllNewest, AllCurrent, Agrees, Adopt;
    var changes := Changes(nodes, values, order);
    FirstObserved(f, nodes, x, value, order);
    var next := Next(f, Emit(x, value));
    ChangesObserved(next, nodes, values, order);
    EmittedFirst(f, Event(x, value), changes);
    AllAdopted(f, next, End(next, EmitSteps(changes)), nodes, x, order, values);
  }

  lemma FirstObserved(f: Fanouts, nodes: map<nat, Node>, x: nat, value: Json, order: seq<nat>)
    requires Agrees(f, nodes) && x in nodes && x !in order && forall d :: d in order ==> d in nodes
    ensures Enabled(f, Emit(x, value))
    ensures var next := Next(f, Emit(x, value));
            Newest(next, x, value) && Otherwise(f, next, [x]) && AllCurrent(next, nodes, order)
  {
    NewestEmitted(f, x, value);
    var next := Next(f, Emit(x, value));
    hide Next, Newest, Otherwise;
    forall d | d in order ensures Newest(next, d, nodes[d].value) { NewestKept(f, next, [x], d, nodes[d].value); }
  }

  lemma AllAdopted(f: Fanouts, g: Fanouts, h: Fanouts, nodes: map<nat, Node>, x: nat, order: seq<nat>, values: map<nat, Json>)
    requires Agrees(f, nodes) && Otherwise(f, g, [x]) && Otherwise(g, h, order)
    requires forall z :: z in values <==> z == x || z in order
    requires x in values && Newest(g, x, values[x]) && AllNewest(h, values, order)
    ensures Agrees(h, Adopt(nodes, values))
  {
    SameSources(f, g, h, x, order);
    assert Adopt(nodes, values).Keys == nodes.Keys;
    hide Newest, Otherwise, AllNewest, Adopt;
    forall y | y in nodes ensures Newest(h, y, Adopt(nodes, values)[y].value) {
      AdoptedNewest(f, g, h, nodes, x, order, values, y);
    }
  }

  lemma AdoptedNewest(f: Fanouts, g: Fanouts, h: Fanouts, nodes: map<nat, Node>, x: nat, order: seq<nat>, values: map<nat, Json>, y: nat)
    requires y in nodes && Newest(f, y, nodes[y].value) && Otherwise(f, g, [x]) && Otherwise(g, h, order)
    requires forall z :: z in values <==> z == x || z in order
    requires x in values && Newest(g, x, values[x]) && AllNewest(h, values, order)
    ensures Newest(h, y, Adopt(nodes, values)[y].value)
  {
    if y !in order {
      if y != x { NewestKept(f, g, [x], y, nodes[y].value); }
      NewestKept(g, h, order, y, if y == x then values[x] else nodes[y].value);
    }
    hide Newest, Otherwise;
  }

  lemma SameSources(f: Fanouts, g: Fanouts, h: Fanouts, x: nat, order: seq<nat>)
    requires Otherwise(f, g, [x]) && Otherwise(g, h, order)
    ensures h.history.Keys == f.history.Keys
  {
  }
}
