/**
 Convergence on one link: the consumer's replica, followed by what is in flight and what waits, is the
 provider's value, and the decoder there will be in step with the encoder here.
 */
module Convergence {
  import opened DeltaCodec
  import opened Wire
  import opened Wrappers
  import opened Remote
  import opened Lanes
  import opened FlowControl
  import opened Provider

  ghost predicate Matches(r: Option<Replica>, v: Value, e: Encoder) {
    r.Some? && r.value.value == v && Synced(e, r.value.paths)
  }

  function SlotOf(o: Out, key: Key): Option<Slot> {
    if key in o.slots then Some(o.slots[key]) else None
  }

  /** Where the stream ends once its waiting slot is sent. */
  function AfterSlot(c: Contract, s: Stream, hold: Hold, m: Name, slot: Option<Slot>): Stream {
    if slot.Some? && slot.value.StreamSlot? then FlowAll(c, s, hold, m, SlotFrames(StreamKey(hold, m), slot.value)) else s
  }

  predicate IsLazy(slot: Option<Slot>) {
    slot.Some? && slot.value.StreamSlot? && slot.value.lazy
  }

  /**
   What is in flight leaves the lane open.  A lazy slot needs no more: its reset carries the current value.
   Otherwise what waits brings the replica to `v`, unless a relay awaits a reset it has asked for.
   */
  ghost predicate Settles(c: Contract, s: Stream, hold: Hold, m: Name, slot: Option<Slot>, v: Value, e: Encoder, resync: bool) {
    && s.lane.open
    && (IsLazy(slot) ||
        var end := AfterSlot(c, s, hold, m, slot);
        if end.awaiting then resync else Matches(end.lane.replica, v, e))
  }

  /** The claim for member `m` of `hold`, for a stream that stood at `start` before the frames on the wire. */
  ghost predicate Delivers(c: Conn, hold: Hold, m: Name, start: Stream, resync: bool) {
    hold in c.locals && m in c.locals[hold].feeds ==>
      var l := c.locals[hold];
      Settles(l.contract, FlowAll(l.contract, start, hold, m, c.out.wire), hold, m,
              SlotOf(c.out, StreamKey(hold, m)), ValueOf(c, hold, m), l.feeds[m], resync)
  }

  /** Feeds belong to the shape, only fed members wait, and nothing here is relayed. */
  ghost predicate Serving(c: Conn) {
    && Ordered(c.out)
    && (forall h :: h in c.locals ==> c.locals[h].feeds.Keys <= Fed(c.locals[h]))
    && (forall h :: h in c.locals && c.locals[h].feeds != map[] ==> c.locals[h].unitSent)
    && (forall k :: k in c.out.slots && k.StreamKey? && k.hold in c.locals ==>
          k.m in c.locals[k.hold].feeds && !c.out.slots[k].relayed)
  }

  // ---------------------------------------------------------------- on one stream

  lemma FlowUnrelated(c: Contract, s: Stream, hold: Hold, m: Name, f: Frame)
    requires f.OtherFrame? || f.hold != hold || (!f.ShapeFrame? && f.m != m)
    ensures Flow(c, s, hold, m, f) == s
  {
  }

  function FlowOps(s: Stream, ops: seq<WireOp>): Stream {
    if s.awaiting || s.lane.replica.None? then s
    else s.(lane := s.lane.(replica := FeedStrict(s.lane.replica.value, ops)))
  }

  function FlowBase(s: Stream, base: Option<Value>): Stream {
    if base.None? then s
    else Stream(false, if s.lane.open then s.lane.(replica := Some(Fresh(base.value))) else s.lane)
  }

  lemma SlotFlow(c: Contract, s: Stream, hold: Hold, m: Name, slot: Slot)
    requires slot.StreamSlot?
    ensures AfterSlot(c, s, hold, m, Some(slot)) == FlowOps(FlowBase(s, slot.base), slot.ops)
  {
    var key := StreamKey(hold, m);
    var a := if slot.base.Some? then [FullFrame(hold, m, slot.base.value)] else [];
    var b := if slot.ops != [] then [OpsFrame(hold, m, slot.ops)] else [];
    FlowConcat(c, s, hold, m, a, b);
    if slot.base.Some? {
      FlowOne(c, s, hold, m, a[0]);
    }
    var mid := FlowBase(s, slot.base);
    if slot.ops != [] {
      FlowOne(c, mid, hold, m, b[0]);
    } else if mid.lane.replica.Some? {
      FeedNothing(mid.lane.replica.value);
    }
  }

  lemma FeedNothing(r: Replica)
    ensures FeedStrict(r, []) == Some(r)
  {
  }

  /** Batches may be coalesced: nothing is lost. */
  lemma FlowOpsConcat(s: Stream, a: seq<WireOp>, b: seq<WireOp>)
    ensures BelowStream(FlowOps(FlowOps(s, a), b), FlowOps(s, a + b))
  {
    if !s.awaiting && s.lane.replica.Some? && SelfStarting(a) && SelfStarting(b) {
      var r := s.lane.replica.value;
      SelfStartingConcat(a, b);
      Coalesce(r.paths, a, b);
      var first := Decode(r.paths, a);
      if first.ok {
        ApplyConcat(r.value, first.ops, Decode(first.paths, b).ops);
      }
    }
  }

  lemma FlowOpsIs(c: Contract, s: Stream, hold: Hold, m: Name, ops: seq<WireOp>)
    ensures Flow(c, s, hold, m, OpsFrame(hold, m, ops)) == FlowOps(s, ops)
  {
  }

  lemma FlowFullIs(c: Contract, s: Stream, hold: Hold, m: Name, v: Value)
    ensures Flow(c, s, hold, m, FullFrame(hold, m, v)) == FlowBase(s, Some(v))
  {
  }

  lemma FreshMatches(v: Value)
    ensures Matches(Some(Fresh(v)), v, FRESH_ENCODER)
  {
  }

  /** A change, encoded: a replica in step stays in step. */
  lemma FeedMatches(r: Option<Replica>, v: Value, e: Encoder, ops: seq<Op>)
    requires Matches(r, v, e) && WellFormed(ops)
    ensures var sent := Encode(e, ops);
            Matches(FeedStrict(r.value, sent.wire), ApplyAll(v, ops), sent.encoder)
  {
    RoundTrip(e, r.value.paths, ops);
    EncodeSelfStarting(e, ops);
  }

  lemma SettleOps(c: Contract, s: Stream, hold: Hold, m: Name, slot: Option<Slot>, v: Value, e: Encoder, resync: bool,
                  ops: seq<Op>, size: nat)
    requires Settles(c, s, hold, m, slot, v, e, resync) && WellFormed(ops) && !IsLazy(slot)
    requires slot.Some? ==> slot.value.StreamSlot?
    ensures var sent := Encode(e, ops);
            && (slot.None? ==> Settles(c, Flow(c, s, hold, m, OpsFrame(hold, m, sent.wire)), hold, m, None,
                                       ApplyAll(v, ops), sent.encoder, resync))
            && var st := if slot.Some? then slot.value else EMPTY_SLOT;
               Settles(c, s, hold, m, Some(st.(ops := st.ops + sent.wire, size := size)),
                       ApplyAll(v, ops), sent.encoder, resync)
  {
    var sent := Encode(e, ops);
    EncodeSelfStarting(e, ops);
    var st := if slot.Some? then slot.value else EMPTY_SLOT;
    SlotFlow(c, s, hold, m, st);
    SlotFlow(c, s, hold, m, st.(ops := st.ops + sent.wire, size := size));
    var mid := FlowBase(s, st.base);
    FlowOpsConcat(mid, st.ops, sent.wire);
    if slot.None? {
      FlowOpsConcat(mid, [], sent.wire);
      assert [] + sent.wire == sent.wire;
      if mid.lane.replica.Some? { FeedNothing(mid.lane.replica.value); }
      FlowOpsIs(c, s, hold, m, sent.wire);
    }
    var end := FlowOps(mid, st.ops);
    if !end.awaiting {
      FeedMatches(end.lane.replica, v, e, ops);
    }
  }

  lemma SettleFull(c: Contract, s: Stream, hold: Hold, m: Name, v: Value, resync: bool, st: Slot)
    requires s.lane.open && st.StreamSlot? && st.ops == [] && st.base == Some(v)
    ensures Settles(c, Flow(c, s, hold, m, FullFrame(hold, m, v)), hold, m, None, v, FRESH_ENCODER, resync)
    ensures Settles(c, s, hold, m, Some(st), v, FRESH_ENCODER, resync)
  {
    FreshMatches(v);
    SlotFlow(c, s, hold, m, st);
    FeedNothing(Fresh(v));
  }

  /** Sending what waits changes nothing. */
  lemma SettleFlush(c: Contract, s: Stream, hold: Hold, m: Name, slot: Slot, v: Value, e: Encoder, resync: bool)
    requires Settles(c, s, hold, m, Some(slot), v, e, resync) && slot.StreamSlot? && !slot.lazy
    ensures Settles(c, FlowAll(c, s, hold, m, SlotFrames(StreamKey(hold, m), slot)), hold, m, None, v, e, resync)
  {
    SlotFlow(c, s, hold, m, slot);
  }

  /** Where a stream ends: over what waits, or over the reset that a lazy slot stands for. */
  function Last(c: Contract, s: Stream, hold: Hold, m: Name, slot: Option<Slot>, v: Value): Stream {
    if IsLazy(slot) then Flow(c, s, hold, m, FullFrame(hold, m, v)) else AfterSlot(c, s, hold, m, slot)
  }

  lemma SettlesAtLast(c: Contract, s: Stream, hold: Hold, m: Name, slot: Option<Slot>, v: Value, e: Encoder, resync: bool)
    requires Settles(c, s, hold, m, slot, v, e, resync)
    ensures var last := Last(c, s, hold, m, slot, v);
            && (last.awaiting ==> resync)
            && (!last.awaiting ==> last.lane.replica.Some? && last.lane.replica.value.value == v)
            && (!last.awaiting && !IsLazy(slot) ==> Synced(e, last.lane.replica.value.paths))
  {
  }
}
