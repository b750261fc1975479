/**
 A relay: it holds no values, forwards shapes at once and state through the consumer's window, and when what
 waits must go it asks the provider for a reset, ignoring ops until that comes.
 */
module RelayEnd {
  import opened DeltaCodec
  import opened Wire
  import opened Wrappers
  import opened Lanes
  import opened FlowControl
  import opened Provider
  import opened Convergence
  import opened ConvergenceSteps
  import opened ProviderBooks
  import opened DirectLink

  /** `urgent`: the members whose next frame does not wait for the window; `awaiting`: those a reset is asked for. */
  datatype RelayHold = RelayHold(again: bool, shaped: bool, urgent: set<Name>, stateWanted: bool, awaiting: set<Name>)

  /** The link towards the consumer, the relayed holds, and what goes up to the provider. */
  datatype Relay = Relay(origin: Conn, holds: map<Hold, RelayHold>, up: seq<Request>)

  /** These members await a reset, and the request for it goes up. */
  function AskResets(r: Relay, keys: seq<Key>): Relay
    decreases |keys|
  {
    if keys == [] then r
    else
      var k := keys[0];
      var r1 := if k.StreamKey? && k.hold in r.holds then
                  var g := r.holds[k.hold];
                  r.(holds := r.holds[k.hold := g.(awaiting := g.awaiting + {k.m})],
                     up := r.up + [Request.Resync(k.hold, k.m)])
                else r;
      AskResets(r1, keys[1..])
  }

  function OnShape(cfg: Config, r: Relay, f: Frame): Relay
    requires f.ShapeFrame? && f.hold in r.holds
  {
    var g := r.holds[f.hold];
    var g1 := if g.shaped then g
              else g.(shaped := true, urgent := if g.again then g.urgent else set n | n in f.listed);
    r.(origin := r.origin.(out := Send(cfg, r.origin.out, f)), holds := r.holds[f.hold := g1])
  }

  function OnState(cfg: Config, r: Relay, f: Frame): Relay
    requires (f.FullFrame? || f.OpsFrame?) && f.hold in r.holds
  {
    var g := r.holds[f.hold];
    if f.m in g.awaiting && f.OpsFrame? then r
    else
      var g1 := g.(awaiting := g.awaiting - {f.m}, urgent := g.urgent - {f.m});
      var r1 := r.(holds := r.holds[f.hold := g1]);
      if f.m in g.urgent then r1.(origin := r.origin.(out := Send(cfg, r.origin.out, f)))
      else
        var e := SendState(cfg, r.origin.out, f, true);
        AskResets(r1.(origin := r.origin.(out := e.out)), e.resyncs)
  }

  /** A frame from the provider. */
  function OnFrame(cfg: Config, r: Relay, f: Frame): Relay {
    match f
    case ShapeFrame(h, _, _) => if h in r.holds then OnShape(cfg, r, f) else r
    case FullFrame(h, _, _) => if h in r.holds then OnState(cfg, r, f) else r
    case OpsFrame(h, _, _) => if h in r.holds then OnState(cfg, r, f) else r
    case OtherFrame(_) => r
  }

  /** A wish from below, passed on up; stopping gives up what was awaited. */
  function WantState(r: Relay, h: Hold, wanted: bool): Relay
    requires h in r.holds
  {
    var g := r.holds[h];
    if wanted == g.stateWanted then r
    else
      var r1 := r.(up := r.up + [if wanted then Sub(h) else Unsub(h)]);
      if wanted then r1.(holds := r.holds[h := g.(stateWanted := true)])
      else r1.(origin := r.origin.(out := DropHoldState(r.origin.out, h)),
               holds := r.holds[h := g.(stateWanted := false, awaiting := {})])
  }

  /** A request from the consumer; none: a violation. */
  function OnRequest(cfg: Config, r: Relay, q: Request): Option<Relay>
    requires Ordered(r.origin.out)
  {
    match q
    case Sub(h) => if h in r.holds then Some(WantState(r, h, true)) else ServeHere(cfg, r, q)
    case Unsub(h) => if h in r.holds then Some(WantState(r, h, false)) else ServeHere(cfg, r, q)
    case Resync(h, m) => if h in r.holds then Some(AskResets(r, [StreamKey(h, m)])) else ServeHere(cfg, r, q)
    case _ => ServeHere(cfg, r, q)
  }

  function ServeHere(cfg: Config, r: Relay, q: Request): Option<Relay>
    requires Ordered(r.origin.out)
  {
    var served := ServeRequest(cfg, r.origin, q);
    if served.None? then None else Some(r.(origin := served.value))
  }

  /** What happens to objects served here on the same link: their ops may push relayed ones out. */
  function Act(cfg: Config, r: Relay, a: DirectLink.Act): Relay
    requires Ordered(r.origin.out)
  {
    match a
    case Change(h, m, ops) =>
      if !WellFormed(ops) then r
      else
        var e := Changed(cfg, r.origin, h, m, ops);
        AskResets(r.(origin := e.conn), e.resyncs)
    case SetValue(h, m, value) =>
      var e := Replaced(cfg, r.origin, h, m, value);
      AskResets(r.(origin := e.conn), e.resyncs)
    case _ => r.(origin := DoAct(cfg, r.origin, a))
  }

  // ---------------------------------------------------------------- what a relay keeps

  /** Relayed streams wait with their ops or not at all; a member awaiting a reset, or urgent, has nothing waiting. */
  ghost predicate Relaying(r: Relay) {
    && Serving(r.origin) && r.origin.locals.Keys !! r.holds.Keys
    && (forall k :: k in r.origin.out.slots && k.StreamKey? && k.hold in r.holds ==>
          && r.origin.out.slots[k].relayed && !r.origin.out.slots[k].lazy
          && r.holds[k.hold].shaped
          && k.m !in r.holds[k.hold].awaiting && k.m !in r.holds[k.hold].urgent)
  }

  /** Where the relay's side of member `m` stands: the consumer's lane over the wire and the waiting slot. */
  function Front(k: Contract, lane: Lane, o: Out, h: Hold, m: Name): Lane {
    AfterSlot(k, FlowAll(k, Stream(false, lane), h, m, o.wire), h, m, SlotOf(o, StreamKey(h, m))).lane
  }

  function AwaitsReset(r: Relay, h: Hold, m: Name): bool {
    h in r.holds && m in r.holds[h].awaiting
  }

  function StreamAt(r: Relay, k: Contract, lane: Lane, h: Hold, m: Name): Stream {
    Stream(AwaitsReset(r, h, m), Front(k, lane, r.origin.out, h, m))
  }

  // ---------------------------------------------------------------- losing what waits

  /** `t` lost the replica `s` has, and awaits a reset; or it caught up. */
  ghost predicate Lost(s: Stream, t: Stream) {
    && s.lane.open == t.lane.open && Sound(s.lane) && Sound(t.lane)
    && !s.awaiting && (t.awaiting || s == t)
  }

  lemma {:induction false} LostFlow(k: Contract, s: Stream, t: Stream, h: Hold, m: Name, frames: seq<Frame>)
    requires Lost(s, t)
    ensures Lost(FlowAll(k, s, h, m, frames), FlowAll(k, t, h, m, frames))
    decreases |frames|
  {
    if frames != [] {
      LostFlow(k, Flow(k, s, h, m, frames[0]), Flow(k, t, h, m, frames[0]), h, m, frames[1..]);
    }
  }

  lemma LostSettles(k: Contract, s: Stream, t: Stream, h: Hold, m: Name, slot: Option<Slot>, v: Value, e: Encoder, resync: bool)
    requires Settles(k, s, h, m, slot, v, e, resync) && Lost(s, t)
    ensures Settles(k, t, h, m, slot, v, e, true)
  {
    if slot.Some? && slot.value.StreamSlot? {
      LostFlow(k, s, t, h, m, SlotFrames(StreamKey(h, m), slot.value));
    }
  }

  /** `t` is where the stream may stand instead of `s`: at least as far, or lost with a reset asked for. */
  ghost predicate Replaces(s: Stream, t: Stream, resync: bool, asked: bool) {
    Sound(s.lane) && Sound(t.lane) && (resync ==> asked) && (BelowStream(s, t) || (Lost(s, t) && asked))
  }

  lemma ReplacesDelivers(c: Conn, h: Hold, m: Name, s: Stream, t: Stream, resync: bool, asked: bool)
    requires Delivers(c, h, m, s, resync) && Replaces(s, t, resync, asked)
    ensures Delivers(c, h, m, t, asked)
  {
    if h in c.locals && m in c.locals[h].feeds {
      var l := c.locals[h];
      var slot, v := SlotOf(c.out, StreamKey(h, m)), ValueOf(c, h, m);
      var a, b := FlowAll(l.contract, s, h, m, c.out.wire), FlowAll(l.contract, t, h, m, c.out.wire);
      if BelowStream(s, t) {
        FlowAllMonotone(l.contract, s, t, h, m, c.out.wire);
        SettlesMonotone(l.contract, a, b, h, m, slot, v, l.feeds[m], resync);
      } else {
        LostFlow(l.contract, s, t, h, m, c.out.wire);
        LostSettles(l.contract, a, b, h, m, slot, v, l.feeds[m], resync);
      }
    }
  }

  lemma {:induction false} SoundAll(k: Contract, s: Stream, h: Hold, m: Name, frames: seq<Frame>)
    requires Sound(s.lane)
    ensures Sound(FlowAll(k, s, h, m, frames).lane)
    decreases |frames|
  {
    if frames != [] { SoundAll(k, Flow(k, s, h, m, frames[0]), h, m, frames[1..]); }
  }

  lemma FrontSound(k: Contract, lane: Lane, o: Out, h: Hold, m: Name)
    requires Sound(lane)
    ensures Sound(Front(k, lane, o, h, m))
    ensures Sound(FlowAll(k, Stream(false, lane), h, m, o.wire).lane)
    ensures !FlowAll(k, Stream(false, lane), h, m, o.wire).awaiting
  {
    SoundAll(k, Stream(false, lane), h, m, o.wire);
    NeverAwaits(k, Stream(false, lane), h, m, o.wire);
    var s, slot := FlowAll(k, Stream(false, lane), h, m, o.wire), SlotOf(o, StreamKey(h, m));
    if slot.Some? && slot.value.StreamSlot? {
      SoundAll(k, s, h, m, SlotFrames(StreamKey(h, m), slot.value));
    }
  }

  /** The slot alone does not open or close the lane. */
  lemma SlotKeepsOpen(k: Contract, s: Stream, h: Hold, m: Name, slot: Option<Slot>)
    requires !s.awaiting
    ensures AfterSlot(k, s, h, m, slot).lane.open == s.lane.open && !AfterSlot(k, s, h, m, slot).awaiting
  {
    if slot.Some? && slot.value.StreamSlot? { SlotFlow(k, s, h, m, slot.value); }
  }

  // ---------------------------------------------------------------- the front under operations of the origin link

  /** Frames about others leave the front as it is. */
  lemma FrontUnrelated(k: Contract, lane: Lane, o: Out, next: Out, frames: seq<Frame>, h: Hold, m: Name)
    requires next.wire == o.wire + frames && SlotOf(next, StreamKey(h, m)) == SlotOf(o, StreamKey(h, m))
    requires forall i :: 0 <= i < |frames| ==>
               frames[i].OtherFrame? || frames[i].hold != h || (!frames[i].ShapeFrame? && frames[i].m != m)
    ensures Front(k, lane, next, h, m) == Front(k, lane, o, h, m)
  {
    FlowConcat(k, Stream(false, lane), h, m, o.wire, frames);
    FlowAllUnrelated(k, FlowAll(k, Stream(false, lane), h, m, o.wire), h, m, frames);
  }

  /** Sending what waits leaves it as it is. */
  lemma FlushFirstFront(cfg: Config, r: Relay, k: Contract, lane: Lane, h: Hold, m: Name)
    requires Relaying(r) && h in r.holds && r.origin.out.order != [] && r.origin.out.order[0] in r.origin.out.slots
    ensures Front(k, lane, FlushFirst(cfg, r.origin).out, h, m) == Front(k, lane, r.origin.out, h, m)
  {
    var c := r.origin;
    match c.out.order[0]
    case UnitKey(x) => FlushUnitFront(cfg, r, x, k, lane, h, m);
    case StreamKey(x, n) =>
      if c.out.slots[c.out.order[0]].lazy {
        if x in c.locals && n in c.locals[x].feeds {
          FrontUnrelated(k, lane, c.out, FlushFirst(cfg, c).out, [FullFrame(x, n, ValueOf(c, x, n))], h, m);
        }
      } else {
        FlushStreamFront(cfg, r, x, n, k, lane, h, m);
      }
  }

  lemma FlushUnitFront(cfg: Config, r: Relay, x: Hold, k: Contract, lane: Lane, h: Hold, m: Name)
    requires Relaying(r) && h in r.holds && r.origin.out.order != [] && r.origin.out.order[0] in r.origin.out.slots
    requires r.origin.out.order[0] == UnitKey(x)
    ensures Front(k, lane, FlushFirst(cfg, r.origin).out, h, m) == Front(k, lane, r.origin.out, h, m)
  {
    var c, key := r.origin, r.origin.out.order[0];
    var c0 := c.(out := TakeOut(c.out, key));
    if x in c.locals && c.locals[x].shape.Some? {
      var frames := [ShapeFrame(x, c.locals[x].shape.value, Listed(c.locals[x]))] + Snapshots(c0, x, Listed(c.locals[x]));
      SnapshotsElsewhere(c0, x, Listed(c.locals[x]));
      SendAllOrdered(cfg, Remove(c0.out, key), frames);
      FrontUnrelated(k, lane, c.out, FlushFirst(cfg, c).out, frames, h, m);
    }
  }

  lemma FlushStreamFront(cfg: Config, r: Relay, x: Hold, n: Name, k: Contract, lane: Lane, h: Hold, m: Name)
    requires Relaying(r) && h in r.holds && r.origin.out.order != [] && r.origin.out.order[0] in r.origin.out.slots
    requires r.origin.out.order[0] == StreamKey(x, n) && !r.origin.out.slots[StreamKey(x, n)].lazy
    ensures Front(k, lane, FlushFirst(cfg, r.origin).out, h, m) == Front(k, lane, r.origin.out, h, m)
  {
    var c, key := r.origin, StreamKey(x, n);
    var frames := SlotFrames(key, c.out.slots[key]);
    SendAllOrdered(cfg, TakeOut(c.out, key), frames);
    if key == StreamKey(h, m) {
      FlowConcat(k, Stream(false, lane), h, m, c.out.wire, frames);
    } else {
      FrontUnrelated(k, lane, c.out, FlushFirst(cfg, c).out, frames, h, m);
    }
  }

  /** Flushing one slot adds none. */
  lemma FlushFirstSlots(cfg: Config, c: Conn)
    requires Ordered(c.out) && c.out.order != [] && c.out.order[0] in c.out.slots
    ensures forall k :: k in FlushFirst(cfg, c).out.slots ==> k in c.out.slots && FlushFirst(cfg, c).out.slots[k] == c.out.slots[k]
  {
    var key := c.out.order[0];
    var c0 := c.(out := TakeOut(c.out, key));
    match key
    case UnitKey(x) => SendUnitOut(cfg, c0, x);
    case StreamKey(x, n) =>
      if !c.out.slots[key].lazy { SendAllOrdered(cfg, c0.out, SlotFrames(key, c.out.slots[key])); }
  }

  lemma FlushFirstRelaying(cfg: Config, r: Relay)
    requires Relaying(r) && r.origin.out.order != [] && r.origin.out.order[0] in r.origin.out.slots
    ensures Relaying(r.(origin := FlushFirst(cfg, r.origin)))
  {
    FlushFirstServing(cfg, r.origin);
    FlushFirstLocals(cfg, r.origin);
    FlushFirstSlots(cfg, r.origin);
    hide FlushFirst;
  }

  lemma {:induction false} FlushFront(cfg: Config, r: Relay, k: Contract, lane: Lane, h: Hold, m: Name)
    requires Relaying(r)
    ensures Relaying(r.(origin := Flush(cfg, r.origin)))
    ensures h in r.holds ==> Front(k, lane, Flush(cfg, r.origin).out, h, m) == Front(k, lane, r.origin.out, h, m)
    decreases |r.origin.out.order|
  {
    if r.origin.out.order != [] && !WindowFull(cfg, r.origin.out) {
      FlushFirstOrdered(cfg, r.origin);
      FlushFirstRelaying(cfg, r);
      if h in r.holds { FlushFirstFront(cfg, r, k, lane, h, m); }
      FlushFront(cfg, r.(origin := FlushFirst(cfg, r.origin)), k, lane, h, m);
    }
  }

  // ---------------------------------------------------------------- holds served here, on the same link

  /** As `Relaying`, while the shape or wish of the local hold `x` just changed. */
  ghost predicate RelayingBut(r: Relay, x: Hold) {
    && ServingBut(r.origin, x) && r.origin.locals.Keys !! r.holds.Keys
    && (forall k :: k in r.origin.out.slots && k.StreamKey? && k.hold in r.holds ==>
          && r.origin.out.slots[k].relayed && !r.origin.out.slots[k].lazy
          && r.holds[k.hold].shaped
          && k.m !in r.holds[k.hold].awaiting && k.m !in r.holds[k.hold].urgent)
  }

  lemma SendUnitFront(cfg: Config, r: Relay, x: Hold, k: Contract, lane: Lane, h: Hold, m: Name)
    requires Relaying(r)
    ensures Relaying(r.(origin := SendUnit(cfg, r.origin, x)))
    ensures h in r.holds ==> Front(k, lane, SendUnit(cfg, r.origin, x).out, h, m) == Front(k, lane, r.origin.out, h, m)
  {
    var c := r.origin;
    SendUnitServing(cfg, c, x);
    if x in c.locals && c.locals[x].shape.Some? {
      var frames := [ShapeFrame(x, c.locals[x].shape.value, Listed(c.locals[x]))] + Snapshots(c, x, Listed(c.locals[x]));
      SnapshotsElsewhere(c, x, Listed(c.locals[x]));
      SendAllOrdered(cfg, Remove(c.out, UnitKey(x)), frames);
      if h in r.holds { FrontUnrelated(k, lane, c.out, SendUnit(cfg, c, x).out, frames, h, m); }
    }
  }

  lemma QueueUnitFront(cfg: Config, r: Relay, x: Hold, k: Contract, lane: Lane, h: Hold, m: Name)
    requires Relaying(r)
    ensures Relaying(r.(origin := QueueUnit(cfg, r.origin, x)))
    ensures h in r.holds ==> Front(k, lane, QueueUnit(cfg, r.origin, x).out, h, m) == Front(k, lane, r.origin.out, h, m)
  {
    PutOrdered(r.origin.out, UnitKey(x), UnitSlot);
    var o := if UnitKey(x) in r.origin.out.slots then r.origin.out else Put(r.origin.out, UnitKey(x), UnitSlot);
    FlushFront(cfg, r.(origin := r.origin.(out := o)), k, lane, h, m);
  }

  lemma EndFeedsFront(cfg: Config, r: Relay, x: Hold, gone: set<Name>, k: Contract, lane: Lane, h: Hold, m: Name)
    requires RelayingBut(r, x) && x in r.origin.locals && r.origin.locals[x].feeds.Keys - gone <= Fed(r.origin.locals[x])
    ensures Relaying(r.(origin := EndFeeds(r.origin, x, gone)))
    ensures h in r.holds ==> Front(k, lane, EndFeeds(r.origin, x, gone).out, h, m) == Front(k, lane, r.origin.out, h, m)
  {
    EndFeedsServing(cfg, r.origin, x, gone);
    EndFeedsSlots(cfg, r.origin, x, gone);
    if h in r.holds {
      assert SlotOf(EndFeeds(r.origin, x, gone).out, StreamKey(h, m)) == SlotOf(r.origin.out, StreamKey(h, m));
    }
  }

  lemma UnitFront(cfg: Config, r: Relay, x: Hold, k: Contract, lane: Lane, h: Hold, m: Name)
    requires RelayingBut(r, x) && x in r.origin.locals
    requires r.origin.locals[x].shape.None? ==> r.origin.locals[x].feeds == map[]
    ensures Relaying(r.(origin := Unit(cfg, r.origin, x)))
    ensures h in r.holds ==> Front(k, lane, Unit(cfg, r.origin, x).out, h, m) == Front(k, lane, r.origin.out, h, m)
  {
    var l := r.origin.locals[x];
    if l.shape.Some? {
      var gone := l.feeds.Keys - Fed(l);
      EndFeedsFront(cfg, r, x, gone, k, lane, h, m);
      var c1 := EndFeeds(r.origin, x, gone);
      if c1.locals[x].feeds == map[] && !(l.again && !l.unitSent) {
        SendUnitFront(cfg, r.(origin := c1), x, k, lane, h, m);
      } else {
        QueueUnitFront(cfg, r.(origin := c1), x, k, lane, h, m);
      }
    }
  }

  /** Forgetting what waits for another hold. */
  lemma DropHoldFront(cfg: Config, r: Relay, x: Hold, k: Contract, lane: Lane, h: Hold, m: Name)
    requires Ordered(r.origin.out)
    ensures Ordered(DropHoldState(r.origin.out, x))
    ensures h != x ==> Front(k, lane, DropHoldState(r.origin.out, x), h, m) == Front(k, lane, r.origin.out, h, m)
    ensures forall y :: y in DropHoldState(r.origin.out, x).slots <==> y in r.origin.out.slots && y.hold != x
    ensures forall y :: y in DropHoldState(r.origin.out, x).slots ==>
              DropHoldState(r.origin.out, x).slots[y] == r.origin.out.slots[y]
  {
    var doomed := KeysOfHold(r.origin.out, x);
    DropKeysKeeps(cfg, r.origin.out, doomed, r.origin.out.order);
    DropKeysIs(r.origin.out, doomed, r.origin.out.order);
    if h != x {
      assert SlotOf(DropHoldState(r.origin.out, x), StreamKey(h, m)) == SlotOf(r.origin.out, StreamKey(h, m));
    }
  }

  /** A request this end serves itself. */
  lemma ServeHereFront(cfg: Config, r: Relay, q: Request, k: Contract, lane: Lane, h: Hold, m: Name)
    requires Relaying(r) && ServeHere(cfg, r, q).Some? && !q.Resync?
    ensures Relaying(ServeHere(cfg, r, q).value)
    ensures h in r.holds ==>
              Front(k, lane, ServeHere(cfg, r, q).value.origin.out, h, m) == Front(k, lane, r.origin.out, h, m)
  {
    var c := r.origin;
    match q
    case Hello(acks) => ServingWith(c, FlowControl.Hello(c.out, acks), c.locals, c.values);
    case Ack(n) =>
      ServingWith(c, Acknowledge(c.out, n), c.locals, c.values);
      FlushFront(cfg, r.(origin := c.(out := Acknowledge(c.out, n))), k, lane, h, m);
    case Sub(x) =>
      if x in c.locals && !c.locals[x].wantsState {
        UnitFront(cfg, r.(origin := c.(locals := c.locals[x := c.locals[x].(wantsState := true)])), x, k, lane, h, m);
      }
    case Unsub(x) =>
      StopServing(cfg, c, x);
      DropHoldFront(cfg, r, x, k, lane, h, m);
  }
}
