/**
 Publication order of a replicated state and the bounded queue of each of its subscribers.  Listeners run between
 any two steps, so they may publish, subscribe and unsubscribe at any point.
 */
module Subscribers {
  import opened Schemas
  import opened Wrappers
  import opened Ids

  const LIMIT: nat := 100

  datatype Delivery = Delivery(hydrate: bool, sequence: nat, value: Json)

  /**
   `loops`: drain loops that are between two callbacks; `calls`: callbacks still running.  `delivered` is
   every callback so far; `overflowed`: some publication was dropped.
   */
  datatype Subscriber = Subscriber(hydrated: nat, pending: seq<Delivery>, running: bool, started: bool, closed: bool,
                                   loops: nat, calls: nat, delivered: seq<Delivery>, overflowed: bool)

  /** At the limit everything waiting goes, but for a hydration that has not started. */
  function Pushed(s: Subscriber, frame: Delivery): Subscriber {
    if s.closed then s
    else if |s.pending| == LIMIT then
      s.(pending := (if s.started || s.pending == [] then [] else [s.pending[0]]) + [frame], overflowed := true)
    else s.(pending := s.pending + [frame])
  }

  function Drained(s: Subscriber): Subscriber {
    if s.running || s.closed then s else s.(running := true, loops := s.loops + 1)
  }

  /** The drain loop hands the oldest frame to the listener. */
  function Called(s: Subscriber): Subscriber
    requires s.loops > 0 && s.pending != []
  {
    s.(pending := s.pending[1..], started := true, loops := s.loops - 1, calls := s.calls + 1,
       delivered := s.delivered + [s.pending[0]])
  }

  /** A synchronous listener returned or threw. */
  function Returned(s: Subscriber): Subscriber
    requires s.calls > 0
  {
    s.(calls := s.calls - 1, loops := s.loops + 1)
  }

  /** The promise of an asynchronous one settled. */
  function Resumed(s: Subscriber): Subscriber
    requires s.calls > 0
  {
    Drained(s.(calls := s.calls - 1, running := false))
  }

  function Ended(s: Subscriber): Subscriber
    requires s.loops > 0
  {
    s.(loops := s.loops - 1, running := false)
  }

  function Closed(s: Subscriber): Subscriber {
    s.(closed := true, pending := [])
  }

  // ---------------------------------------------------------------- the publisher

  datatype Publication = Publication(sequence: nat, value: Json)

  /**
   `history[k]`: the value of sequence `k`, the current one last.  `left`: the subscribers the delivery loop has
   still to visit for `current`.
   */
  datatype Publisher = Publisher(history: seq<Json>, publications: seq<Publication>, delivering: bool,
                                 current: Option<Publication>, left: seq<nat>,
                                 listeners: seq<nat>, subscribers: map<nat, Subscriber>)

  datatype Step =
    | Publish(value: Json)
    | TakePublication
    | Visit
    | FinishDelivery
    | Subscribe(id: nat)
    | Unsubscribe(id: nat)
    | Call(id: nat)
    | Return(id: nat)
    | Resume(id: nat)
    | EndDrain(id: nat)

  function Sequence(p: Publisher): nat
    requires p.history != []
  {
    |p.history| - 1
  }

  predicate Enabled(p: Publisher, step: Step) {
    match step
    case Publish(_) => true
    case TakePublication => p.delivering && p.current.None? && p.publications != []
    case Visit => p.delivering && p.current.Some?
    case FinishDelivery => p.delivering && p.current.None? && p.publications == []
    case Subscribe(id) => id !in p.subscribers
    case Unsubscribe(id) => id in p.subscribers
    case Call(id) => id in p.subscribers && p.subscribers[id].loops > 0 && p.subscribers[id].pending != []
    case Return(id) => id in p.subscribers && p.subscribers[id].calls > 0
    case Resume(id) => id in p.subscribers && p.subscribers[id].calls > 0
    case EndDrain(id) => id in p.subscribers && p.subscribers[id].loops > 0 && p.subscribers[id].pending == []
  }

  function With(p: Publisher, id: nat, s: Subscriber): Publisher {
    p.(subscribers := p.subscribers[id := s])
  }

  function Unsubscribed(p: Publisher, id: nat): Publisher
    requires id in p.subscribers
  {
    With(p, id, Closed(p.subscribers[id])).(listeners := Without(p.listeners, id))
  }

  /** The next subscriber gets the publication unless its hydration was later; it starts to drain. */
  function Visited(p: Publisher): Publisher
    requires p.current.Some?
  {
    if p.left == [] then p.(current := None)
    else
      var id := p.left[0];
      var rest := p.(left := p.left[1..]);
      if id !in p.subscribers || p.current.value.sequence <= p.subscribers[id].hydrated then rest
      else With(rest, id, Drained(Pushed(p.subscribers[id], Delivery(false, p.current.value.sequence, p.current.value.value))))
  }

  function Next(p: Publisher, step: Step): Publisher
    requires p.history != [] && Enabled(p, step)
  {
    match step
    case Publish(value) =>
      p.(history := p.history + [value], publications := p.publications + [Publication(|p.history|, value)], delivering := true)
    case TakePublication => p.(current := Some(p.publications[0]), publications := p.publications[1..], left := p.listeners)
    case Visit => Visited(p)
    case FinishDelivery => p.(delivering := false)
    case Subscribe(id) =>
      var created := Subscriber(Sequence(p), [], false, false, false, 0, 0, [], false);
      var hydration := Delivery(true, Sequence(p), p.history[Sequence(p)]);
      With(p, id, Drained(Pushed(created, hydration))).(listeners := p.listeners + [id])
    case Unsubscribe(id) => Unsubscribed(p, id)
    case Call(id) => With(p, id, Called(p.subscribers[id]))
    case Return(id) => With(p, id, Returned(p.subscribers[id]))
    case Resume(id) => With(p, id, Resumed(p.subscribers[id]))
    case EndDrain(id) => With(p, id, Ended(p.subscribers[id]))
  }

  // ---------------------------------------------------------------- what every run keeps

  /** Hydration first, then later publications in order, each with the value it was published with. */
  ghost predicate Stream(history: seq<Json>, hydrated: nat, entries: seq<Delivery>) {
    && (entries != [] ==> entries[0].hydrate && entries[0].sequence == hydrated)
    && (forall i :: 0 < i < |entries| ==> !entries[i].hydrate)
    && (forall i :: 0 <= i < |entries| ==> entries[i].sequence < |history| && entries[i].value == history[entries[i].sequence])
    && (forall i, j :: 0 <= i < j < |entries| ==> entries[i].sequence < entries[j].sequence)
  }

  /** Nothing is missing between hydration and the last entry. */
  ghost predicate Gapless(hydrated: nat, entries: seq<Delivery>) {
    forall i :: 0 <= i < |entries| ==> entries[i].sequence == hydrated + i
  }

  /** Callbacks of one subscriber never overlap, and whatever waits has a loop or a callback it waits for. */
  predicate OneAtATime(s: Subscriber) {
    && s.loops + s.calls == (if s.running then 1 else 0)
    && |s.pending| <= LIMIT
    && (s.pending != [] ==> s.running && !s.closed)
    && (s.started <==> s.delivered != [])
  }

  /** What a subscriber got and will get, of the publications up to `reached`. */
  ghost predicate Served(history: seq<Json>, s: Subscriber, reached: nat) {
    && OneAtATime(s)
    && Stream(history, s.hydrated, s.delivered + s.pending)
    && (!s.closed ==>
          var entries := s.delivered + s.pending;
          && entries != [] && entries[|entries| - 1].sequence == reached
          && (!s.overflowed ==> Gapless(s.hydrated, entries)))
  }

  /** The last publication that left the queue. */
  function Position(p: Publisher): int {
    |p.history| - 1 - |p.publications|
  }

  /** The newest publication a subscriber must have been given by now. */
  function Reached(p: Publisher, id: nat): int
    requires id in p.subscribers
  {
    var position := if p.current.Some? && id in p.left then Position(p) - 1 else Position(p);
    if p.subscribers[id].hydrated > position then p.subscribers[id].hydrated else position
  }

  ghost predicate QueueIsRest(p: Publisher) {
    && 0 <= Position(p)
    && (forall i :: 0 <= i < |p.publications| ==>
          p.publications[i] == Publication(Position(p) + 1 + i, p.history[Position(p) + 1 + i]))
    && (p.current.Some? ==> 0 < Position(p) && p.current.value == Publication(Position(p), p.history[Position(p)]))
    && (!p.delivering ==> p.publications == [] && p.current.None?)
  }

  ghost predicate Listening(p: Publisher) {
    && (forall id :: id in p.listeners <==> id in p.subscribers && !p.subscribers[id].closed)
    && Distinct(p.listeners) && Distinct(p.left)
    && (forall id :: id in p.left ==> id in p.subscribers)
  }

  ghost predicate IsServed(p: Publisher, id: nat)
    requires id in p.subscribers
  {
    0 <= Reached(p, id) && Served(p.history, p.subscribers[id], Reached(p, id))
  }

  ghost predicate Inv(p: Publisher) {
    && p.history != [] && QueueIsRest(p) && Listening(p)
    && forall id :: id in p.subscribers ==> IsServed(p, id)
  }

  // ---------------------------------------------------------------- steps of one subscriber

  lemma StreamAppended(history: seq<Json>, hydrated: nat, entries: seq<Delivery>, frame: Delivery)
    requires Stream(history, hydrated, entries) && entries != []
    requires !frame.hydrate && entries[|entries| - 1].sequence < frame.sequence < |history| && frame.value == history[frame.sequence]
    ensures Stream(history, hydrated, entries + [frame])
  {
  }

  lemma KeptServed(history: seq<Json>, s: Subscriber, reached: nat)
    requires Served(history, s, reached) && !s.closed && |s.pending| == LIMIT
    ensures var kept := if s.started then s.delivered else s.delivered + [s.pending[0]];
            kept != [] && Stream(history, s.hydrated, kept) && kept[|kept| - 1].sequence <= reached
  {
    var entries := s.delivered + s.pending;
    var count := if s.started then |s.delivered| else |s.delivered| + 1;
    assert (if s.started then s.delivered else s.delivered + [s.pending[0]]) == entries[..count];
    BeginningServed(history, s.hydrated, entries, count);
    hide Stream, Gapless;
  }

  /** A beginning of a stream is one, and no further than it. */
  lemma BeginningServed(history: seq<Json>, hydrated: nat, entries: seq<Delivery>, count: nat)
    requires Stream(history, hydrated, entries) && 0 < count <= |entries|
    ensures Stream(history, hydrated, entries[..count])
    ensures entries[..count][count - 1].sequence <= entries[|entries| - 1].sequence
  {
    if count < |entries| { assert entries[count - 1].sequence < entries[|entries| - 1].sequence; }
  }

  /** Served again, with one entry more. */
  lemma ServedWith(history: seq<Json>, s: Subscriber, entries: seq<Delivery>, reached: nat)
    requires OneAtATime(s) && s.delivered + s.pending == entries && entries != []
    requires Stream(history, s.hydrated, entries) && entries[|entries| - 1].sequence == reached
    requires !s.overflowed ==> Gapless(s.hydrated, entries)
    ensures Served(history, s, reached)
  {
    hide Stream, Gapless, OneAtATime;
  }

  lemma OverflowServed(history: seq<Json>, s: Subscriber, reached: nat, next: nat)
    requires Served(history, s, reached) && reached < next < |history| && !s.closed && |s.pending| == LIMIT
    ensures Served(history, Pushed(s, Delivery(false, next, history[next])), next)
  {
    var frame := Delivery(false, next, history[next]);
    var kept := if s.started then s.delivered else s.delivered + [s.pending[0]];
    KeptServed(history, s, reached);
    StreamAppended(history, s.hydrated, kept, frame);
    hide Stream, Gapless;
    OverflowIs(s, frame);
    assert OneAtATime(s);
    hide Served, Pushed, OneAtATime;
    ServedWith(history, Pushed(s, frame), kept + [frame], next);
  }

  lemma OverflowIs(s: Subscriber, frame: Delivery)
    requires OneAtATime(s) && !s.closed && |s.pending| == LIMIT
    ensures var after := Pushed(s, frame);
            var kept := if s.started then s.delivered else s.delivered + [s.pending[0]];
            && OneAtATime(after) && after.overflowed && after.hydrated == s.hydrated
            && after.delivered + after.pending == kept + [frame]
  {
    var after := Pushed(s, frame);
    assert after.pending == (if s.started then [frame] else [s.pending[0]] + [frame]);
    assert s.delivered + ([s.pending[0]] + [frame]) == s.delivered + [s.pending[0]] + [frame];
  }

  lemma AppendedServed(history: seq<Json>, s: Subscriber, reached: nat)
    requires Served(history, s, reached) && reached + 1 < |history| && !s.closed && |s.pending| < LIMIT
    ensures Served(history, Drained(Pushed(s, Delivery(false, reached + 1, history[reached + 1]))), reached + 1)
  {
    var frame := Delivery(false, reached + 1, history[reached + 1]);
    var before := s.delivered + s.pending;
    StreamAppended(history, s.hydrated, before, frame);
    hide Stream;
    AppendIs(s, frame);
    var after := Drained(Pushed(s, frame));
    assert !s.overflowed ==> Gapless(s.hydrated, before + [frame]);
    hide Served, Pushed, Drained, OneAtATime, Gapless;
    ServedWith(history, after, before + [frame], reached + 1);
  }

  lemma AppendIs(s: Subscriber, frame: Delivery)
    requires OneAtATime(s) && !s.closed && |s.pending| < LIMIT
    ensures var after := Drained(Pushed(s, frame));
            && OneAtATime(after) && after.overflowed == s.overflowed && after.hydrated == s.hydrated
            && after.delivered + after.pending == s.delivered + s.pending + [frame]
  {
    assert s.delivered + (s.pending + [frame]) == s.delivered + s.pending + [frame];
  }

  lemma PushedServed(history: seq<Json>, s: Subscriber, reached: nat, next: nat)
    requires Served(history, s, reached) && next == reached + 1 && next < |history|
    ensures Served(history, Drained(Pushed(s, Delivery(false, next, history[next]))), next)
  {
    if !s.closed {
      if |s.pending| == LIMIT { OverflowServed(history, s, reached, next); } else { AppendedServed(history, s, reached); }
    }
    hide Stream, Gapless;
  }

  lemma CalledServed(history: seq<Json>, s: Subscriber, reached: nat)
    requires Served(history, s, reached) && s.loops > 0 && s.pending != []
    ensures Served(history, Called(s), reached)
  {
    assert Called(s).delivered + Called(s).pending == s.delivered + s.pending;
  }

  lemma ClosedServed(history: seq<Json>, s: Subscriber, reached: nat)
    requires Served(history, s, reached)
    ensures Served(history, Closed(s), reached)
  {
    var entries := s.delivered + s.pending;
    assert s.delivered + [] == s.delivered;
    forall i | 0 <= i < |s.delivered| ensures s.delivered[i] == entries[i] {}
  }

  lemma HydratedServed(history: seq<Json>, s: Subscriber)
    requires history != [] && s == Subscriber(|history| - 1, [], false, false, false, 0, 0, [], false)
    ensures Served(history, Drained(Pushed(s, Delivery(true, |history| - 1, history[|history| - 1]))), |history| - 1)
  {
  }

  lemma LaterHistory(history: seq<Json>, value: Json, s: Subscriber, reached: nat)
    requires Served(history, s, reached)
    ensures Served(history + [value], s, reached)
  {
  }

  // ---------------------------------------------------------------- steps of the publisher

  lemma OthersServed(p: Publisher, q: Publisher, id: nat)
    requires id in p.subscribers && IsServed(p, id) && id in q.subscribers && q.subscribers[id] == p.subscribers[id]
    requires q.history == p.history && Reached(q, id) == Reached(p, id)
    ensures IsServed(q, id)
  {
    hide Served;
  }

  lemma PublishKeeps(p: Publisher, value: Json)
    requires Inv(p)
    ensures Inv(Next(p, Publish(value)))
  {
    var q := Next(p, Publish(value));
    PublishQueues(p, value);
    forall id | id in q.subscribers ensures IsServed(q, id) {
      assert IsServed(p, id);
      hide IsServed, QueueIsRest;
      PublishServes(p, value, id);
    }
    hide IsServed, QueueIsRest;
  }

  lemma PublishServes(p: Publisher, value: Json, id: nat)
    requires p.history != [] && id in p.subscribers && IsServed(p, id)
    ensures IsServed(Next(p, Publish(value)), id)
  {
    LaterHistory(p.history, value, p.subscribers[id], Reached(p, id));
    hide Served;
  }

  lemma PublishQueues(p: Publisher, value: Json)
    requires p.history != [] && QueueIsRest(p)
    ensures QueueIsRest(Next(p, Publish(value)))
  {
  }

  lemma TakeKeeps(p: Publisher)
    requires Inv(p) && Enabled(p, TakePublication)
    ensures Inv(Next(p, TakePublication))
  {
    var q := Next(p, TakePublication);
    assert forall i :: 0 <= i < |q.publications| ==> q.publications[i] == p.publications[i + 1];
    forall id | id in q.subscribers ensures IsServed(q, id) {
      assert IsServed(p, id);
      if id in p.listeners { OthersServed(p, q, id); }
    }
  }

  lemma VisitKeeps(p: Publisher)
    requires Inv(p) && Enabled(p, Visit)
    ensures Inv(Next(p, Visit))
  {
    hide Served;
    var q := Next(p, Visit);
    if p.left != [] {
      assert forall x :: x in p.left <==> x == p.left[0] || x in p.left[1..];
      VisitListens(p);
      forall id | id in q.subscribers ensures IsServed(q, id) { VisitServes(p, id); }
    } else {
      forall id | id in q.subscribers ensures IsServed(q, id) { OthersServed(p, q, id); }
    }
    hide IsServed;
  }

  lemma VisitListens(p: Publisher)
    requires Listening(p) && QueueIsRest(p) && Enabled(p, Visit) && p.left != []
    ensures Listening(Visited(p)) && QueueIsRest(Visited(p)) && Visited(p).subscribers.Keys == p.subscribers.Keys
  {
    assert forall i :: 0 <= i < |p.left[1..]| ==> p.left[1..][i] == p.left[i + 1];
    assert forall x :: x in p.left[1..] ==> x in p.left;
  }

  lemma VisitServes(p: Publisher, id: nat)
    requires Listening(p) && QueueIsRest(p) && Enabled(p, Visit) && p.left != [] && id in p.subscribers && IsServed(p, id)
    ensures id in Visited(p).subscribers && IsServed(Visited(p), id)
  {
    hide Served;
    var q := Visited(p);
    var first, rest := p.left[0], p.left[1..];
    assert forall x :: x in p.left <==> x == first || x in rest;
    assert first !in rest by { assert forall i :: 0 <= i < |rest| ==> rest[i] == p.left[i + 1]; }
    if id == first && p.subscribers[id].hydrated < Position(p) {
      PushedServed(p.history, p.subscribers[id], Reached(p, id), Position(p));
    } else {
      OthersServed(p, q, id);
    }
  }

  function Hydrating(p: Publisher): Subscriber
    requires p.history != []
  {
    var created := Subscriber(Sequence(p), [], false, false, false, 0, 0, [], false);
    Drained(Pushed(created, Delivery(true, Sequence(p), p.history[Sequence(p)])))
  }

  lemma SubscribeKeeps(p: Publisher, id: nat)
    requires Inv(p) && Enabled(p, Subscribe(id))
    ensures Inv(Next(p, Subscribe(id)))
  {
    assert Next(p, Subscribe(id)) == With(p, id, Hydrating(p)).(listeners := p.listeners + [id]);
    hide Next, IsServed, Listening, QueueIsRest, Hydrating;
    SubscribeListens(p, id);
    var q := Next(p, Subscribe(id));
    forall x | x in q.subscribers ensures IsServed(q, x) {
      if x != id { SubscribeOthers(p, id, x); } else { SubscribeServes(p, id); }
    }
  }

  lemma SubscribeOthers(p: Publisher, id: nat, x: nat)
    requires p.history != [] && x in p.subscribers && IsServed(p, x) && id !in p.subscribers
    ensures IsServed(With(p, id, Hydrating(p)).(listeners := p.listeners + [id]), x)
  {
    hide Hydrating, Served;
  }

  lemma SubscribeServes(p: Publisher, id: nat)
    requires p.history != [] && QueueIsRest(p)
    ensures IsServed(With(p, id, Hydrating(p)).(listeners := p.listeners + [id]), id)
  {
    HydratedServed(p.history, Subscriber(Sequence(p), [], false, false, false, 0, 0, [], false));
    assert Hydrating(p).hydrated == Sequence(p);
    var q := With(p, id, Hydrating(p)).(listeners := p.listeners + [id]);
    hide Hydrating, Pushed, Drained, Served;
    assert q.subscribers[id] == Hydrating(p) && Reached(q, id) == Sequence(p);
  }

  lemma SubscribeListens(p: Publisher, id: nat)
    requires p.history != [] && Listening(p) && QueueIsRest(p) && id !in p.subscribers
    ensures Listening(With(p, id, Hydrating(p)).(listeners := p.listeners + [id]))
    ensures QueueIsRest(With(p, id, Hydrating(p)).(listeners := p.listeners + [id]))
  {
    assert !Hydrating(p).closed;
    hide Hydrating;
    assert forall i :: 0 <= i < |p.listeners| ==> p.listeners[i] in p.listeners;
  }

  /** A step of one subscriber alone. */
  lemma OwnKeeps(p: Publisher, id: nat, s: Subscriber)
    requires Inv(p) && id in p.subscribers && Served(p.history, s, Reached(p, id))
    requires s.closed == p.subscribers[id].closed && s.hydrated == p.subscribers[id].hydrated
    ensures Inv(With(p, id, s))
  {
    var q := With(p, id, s);
    hide Served;
    forall x | x in q.subscribers ensures IsServed(q, x) {
      if x != id { OthersServed(p, q, x); }
    }
  }

  lemma UnsubscribeKeeps(p: Publisher, id: nat)
    requires Inv(p) && id in p.subscribers
    ensures Inv(Next(p, Unsubscribe(id)))
  {
    assert p.history != [];
    hide *;
    UnsubscribedKeeps(p, id);
    UnsubscribedNext(p, id);
  }

  lemma UnsubscribedNext(p: Publisher, id: nat)
    requires p.history != [] && id in p.subscribers
    ensures Next(p, Unsubscribe(id)) == Unsubscribed(p, id)
  {
    hide Unsubscribed;
  }

  lemma UnsubscribedKeeps(p: Publisher, id: nat)
    requires Inv(p) && id in p.subscribers
    ensures Inv(Unsubscribed(p, id))
  {
    var q := Unsubscribed(p, id);
    UnsubscribeListens(p, id);
    hide Unsubscribed, IsServed, Listening, QueueIsRest;
    forall x | x in q.subscribers ensures IsServed(q, x) { UnsubscribeServes(p, id, x); }
  }

  lemma UnsubscribeServes(p: Publisher, id: nat, x: nat)
    requires id in p.subscribers && x in p.subscribers && IsServed(p, x)
    ensures x in Unsubscribed(p, id).subscribers && IsServed(Unsubscribed(p, id), x)
  {
    hide Served, Without;
    if x == id { ClosedServed(p.history, p.subscribers[id], Reached(p, id)); }
  }

  lemma UnsubscribeListens(p: Publisher, id: nat)
    requires p.history != [] && QueueIsRest(p) && Listening(p) && id in p.subscribers
    ensures var q := Unsubscribed(p, id);
            Listening(q) && QueueIsRest(q) && q.history == p.history && q.subscribers.Keys == p.subscribers.Keys
  {
    hide Without;
  }

  lemma LoopServed(history: seq<Json>, s: Subscriber, reached: nat)
    requires Served(history, s, reached)
    ensures s.calls > 0 ==> Served(history, Returned(s), reached) && Served(history, Resumed(s), reached)
    ensures s.loops > 0 && s.pending == [] ==> Served(history, Ended(s), reached)
  {
    hide Stream, Gapless;
  }

  lemma FinishKeeps(p: Publisher)
    requires Inv(p) && Enabled(p, FinishDelivery)
    ensures Inv(Next(p, FinishDelivery))
  {
    hide Served;
    forall id | id in p.subscribers ensures IsServed(Next(p, FinishDelivery), id) { OthersServed(p, Next(p, FinishDelivery), id); }
  }

  lemma NextKeeps(p: Publisher, step: Step)
    requires Inv(p) && Enabled(p, step)
    ensures Inv(Next(p, step))
  {
    hide Served, QueueIsRest, Listening, Reached;
    match step
    case Publish(value) => PublishKeeps(p, value);
    case TakePublication => TakeKeeps(p);
    case Visit => VisitKeeps(p);
    case FinishDelivery =>
      FinishKeeps(p);
    case Subscribe(id) => SubscribeKeeps(p, id);
    case Unsubscribe(id) => UnsubscribeKeeps(p, id);
    case Call(id) =>
      CalledServed(p.history, p.subscribers[id], Reached(p, id));
      OwnKeeps(p, id, Called(p.subscribers[id]));
    case Return(id) =>
      LoopServed(p.history, p.subscribers[id], Reached(p, id));
      OwnKeeps(p, id, Returned(p.subscribers[id]));
    case Resume(id) =>
      LoopServed(p.history, p.subscribers[id], Reached(p, id));
      OwnKeeps(p, id, Resumed(p.subscribers[id]));
    case EndDrain(id) =>
      LoopServed(p.history, p.subscribers[id], Reached(p, id));
      OwnKeeps(p, id, Ended(p.subscribers[id]));
  }

  // ---------------------------------------------------------------- runs

  function Start(value: Json): Publisher {
    Publisher([value], [], false, None, [], [], map[])
  }

  function RunAll(p: Publisher, steps: seq<Step>): Option<Publisher>
    decreases |steps|
  {
    if steps == [] then Some(p)
    else if p.history != [] && Enabled(p, steps[0]) then RunAll(Next(p, steps[0]), steps[1..])
    else None
  }

  lemma {:induction false} RunKeeps(p: Publisher, steps: seq<Step>)
    requires Inv(p) && RunAll(p, steps).Some?
    ensures Inv(RunAll(p, steps).value)
    decreases |steps|
  {
    if steps != [] {
      NextKeeps(p, steps[0]);
      RunKeeps(Next(p, steps[0]), steps[1..]);
    }
  }

  lemma StartInv(value: Json)
    ensures Inv(Start(value))
  {
  }

  /**
   In every run, whatever listeners do: callbacks of a subscriber never overlap, come hydration first and in
   strictly increasing sequence with the published values, and the queue is bounded.
   */
  lemma SubscriberStreams(value: Json, steps: seq<Step>, id: nat)
    requires RunAll(Start(value), steps).Some? && id in RunAll(Start(value), steps).value.subscribers
    ensures var p := RunAll(Start(value), steps).value;
            var s := p.subscribers[id];
            s.calls <= 1 && |s.pending| <= LIMIT && Stream(p.history, s.hydrated, s.delivered)
  {
    StartInv(value);
    hide RunAll, Inv, Start;
    RunKeeps(Start(value), steps);
    StreamIn(RunAll(Start(value), steps).value, id);
  }

  lemma StreamIn(p: Publisher, id: nat)
    requires Inv(p) && id in p.subscribers
    ensures var s := p.subscribers[id]; s.calls <= 1 && |s.pending| <= LIMIT && Stream(p.history, s.hydrated, s.delivered)
  {
    assert IsServed(p, id);
    hide QueueIsRest, Listening;
    var s := p.subscribers[id];
    StreamBegins(p.history, s.hydrated, s.delivered, s.pending);
  }

  lemma StreamBegins(history: seq<Json>, hydrated: nat, first: seq<Delivery>, rest: seq<Delivery>)
    requires Stream(history, hydrated, first + rest)
    ensures Stream(history, hydrated, first)
  {
    forall i | 0 <= i < |first| ensures first[i] == (first + rest)[i] {}
  }

  /** Once the loop and the subscriber are idle it has seen the current value, and without overflow every one since its hydration. */
  lemma SettledSubscriber(value: Json, steps: seq<Step>, id: nat)
    requires RunAll(Start(value), steps).Some? && id in RunAll(Start(value), steps).value.subscribers
    requires var p := RunAll(Start(value), steps).value;
             !p.delivering && !p.subscribers[id].running && !p.subscribers[id].closed
    ensures var p := RunAll(Start(value), steps).value;
            var s := p.subscribers[id];
            && s.delivered != [] && s.delivered[|s.delivered| - 1].sequence == |p.history| - 1
            && s.delivered[|s.delivered| - 1].value == p.history[|p.history| - 1]
            && (!s.overflowed ==> Gapless(s.hydrated, s.delivered) && |s.delivered| == |p.history| - s.hydrated)
  {
    StartInv(value);
    hide RunAll, Inv, Start;
    RunKeeps(Start(value), steps);
    SettledIn(RunAll(Start(value), steps).value, id);
  }

  lemma SettledIn(p: Publisher, id: nat)
    requires Inv(p) && id in p.subscribers && !p.delivering && !p.subscribers[id].running && !p.subscribers[id].closed
    ensures var s := p.subscribers[id];
            && s.delivered != [] && s.delivered[|s.delivered| - 1].sequence == |p.history| - 1
            && s.delivered[|s.delivered| - 1].value == p.history[|p.history| - 1]
            && (!s.overflowed ==> Gapless(s.hydrated, s.delivered) && |s.delivered| == |p.history| - s.hydrated)
  {
    assert IsServed(p, id);
    var s := p.subscribers[id];
    ReachedWhenIdle(p, id);
    hide QueueIsRest, Listening, IsServed, Reached;
    NewestServed(p.history, s);
  }

  lemma ReachedWhenIdle(p: Publisher, id: nat)
    requires QueueIsRest(p) && id in p.subscribers && IsServed(p, id) && !p.delivering && p.history != []
    requires !p.subscribers[id].closed
    ensures Reached(p, id) == |p.history| - 1 && Served(p.history, p.subscribers[id], |p.history| - 1)
  {
    var s := p.subscribers[id];
    assert (s.delivered + s.pending)[0].sequence == s.hydrated;
  }

  lemma NewestServed(history: seq<Json>, s: Subscriber)
    requires history != [] && Served(history, s, |history| - 1) && !s.running && !s.closed
    ensures s.delivered != [] && s.delivered[|s.delivered| - 1].sequence == |history| - 1
    ensures s.delivered[|s.delivered| - 1].value == history[|history| - 1]
    ensures !s.overflowed ==> Gapless(s.hydrated, s.delivered) && |s.delivered| == |history| - s.hydrated
  {
    assert s.delivered + s.pending == s.delivered;
  }

  // ---------------------------------------------------------------- the object

  /** The queue of one subscriber as it changes in place. */
  class StateSubscriber {
    var pending: seq<Delivery>
    var running: bool
    var started: bool
    var closed: bool
    ghost const hydrated: nat
    ghost var loops: nat
    ghost var calls: nat
    ghost var delivered: seq<Delivery>
    ghost var overflowed: bool

    ghost function View(): Subscriber
      reads this
    {
      Subscriber(hydrated, pending, running, started, closed, loops, calls, delivered, overflowed)
    }

    constructor (ghost sequence: nat)
      ensures View() == Subscriber(sequence, [], false, false, false, 0, 0, [], false)
    {
      pending, running, started, closed, hydrated := [], false, false, false, sequence;
      loops, calls, delivered, overflowed := 0, 0, [], false;
    }

    method Push(frame: Delivery)
      requires OneAtATime(View())
      modifies this`pending, this`overflowed
      ensures View() == Pushed(old(View()), frame)
      ensures |pending| <= LIMIT && (!closed ==> pending != [] && pending[|pending| - 1] == frame)
    {
      if closed { return; }
      if |pending| == LIMIT {
        var first := pending[0];
        pending := [];
        if !started { pending := [first]; }
        overflowed := true;
      }
      pending := pending + [frame];
    }

    /** Starts a drain loop unless one runs; the loop's steps are `Take` and `End`. */
    method Drain() returns (loop: bool)
      modifies this`running, this`loops
      ensures View() == Drained(old(View())) && loop == (loops > old(loops))
    {
      if running || closed { return false; }
      running := true;
      loops := loops + 1;
      loop := true;
    }

    method Take() returns (frame: Option<Delivery>)
      requires OneAtATime(View()) && loops > 0
      modifies this
      ensures old(pending) != [] ==> frame == Some(old(pending)[0]) && View() == Called(old(View()))
      ensures old(pending) == [] ==> frame == None && View() == Ended(old(View()))
    {
      loops := loops - 1;
      if pending == [] {
        running := false;
        return None;
      }
      frame := Some(pending[0]);
      delivered := delivered + [pending[0]];
      pending := pending[1..];
      started := true;
      calls := calls + 1;
    }

    method Close()
      modifies this`pending, this`closed
      ensures View() == Closed(old(View()))
    {
      closed := true;
      pending := [];
    }
  }
}
