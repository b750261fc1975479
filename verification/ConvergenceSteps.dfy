/** Every operation of a provider keeps the claim of every member it streams. */
module ConvergenceSteps {
  import opened DeltaCodec
  import opened Wire
  import opened Wrappers
  import opened Remote
  import opened Lanes
  import opened FlowControl
  import opened Provider
  import opened Convergence

  lemma {:induction false} PickIs(names: seq<Name>, state: set<Name>, except: set<Name>)
    ensures forall n :: n in Pick(names, state, except) <==> n in names && n in state && n !in except
    decreases |names|
  {
    if names != [] {
      PickIs(names[1..], state, except);
      assert forall n :: n in names <==> n == names[0] || n in names[1..];
    }
  }

  lemma ListedIs(l: Local)
    ensures forall n :: n in Listed(l) <==> n in Fed(l) && n !in l.feeds
  {
    if l.wantsState && l.shape.Some? {
      PickIs(l.shape.value.members, VariantState(l.contract, l.shape.value.variant), l.feeds.Keys);
    }
  }

  lemma {:induction false} FlowAllUnrelated(c: Contract, s: Stream, hold: Hold, m: Name, frames: seq<Frame>)
    requires forall i :: 0 <= i < |frames| ==>
               frames[i].OtherFrame? || frames[i].hold != hold || (!frames[i].ShapeFrame? && frames[i].m != m)
    ensures FlowAll(c, s, hold, m, frames) == s
    decreases |frames|
  {
    if frames != [] {
      assert frames[0].OtherFrame? || frames[0].hold != hold || (!frames[0].ShapeFrame? && frames[0].m != m);
      FlowAllUnrelated(c, s, hold, m, frames[1..]);
    }
  }

  /** The snapshots of a unit bring an open lane to the member's value if they include it. */
  lemma {:induction false} SnapshotsFlow(k: Contract, c: Conn, s: Stream, h: Hold, hold: Hold, m: Name, names: seq<Name>)
    requires s.lane.open
    ensures FlowAll(k, s, hold, m, Snapshots(c, h, names)) ==
            if h == hold && m in names then Stream(false, Lane(true, Some(Fresh(ValueOf(c, hold, m))))) else s
    decreases |names|
  {
    if names != [] {
      SnapshotsFlow(k, c, Flow(k, s, hold, m, FullFrame(h, names[0], ValueOf(c, h, names[0]))), h, hold, m, names[1..]);
    }
  }

  lemma {:induction false} SnapshotsElsewhere(c: Conn, h: Hold, names: seq<Name>)
    ensures forall i :: 0 <= i < |Snapshots(c, h, names)| ==>
              Snapshots(c, h, names)[i].FullFrame? && Snapshots(c, h, names)[i].hold == h
    decreases |names|
  {
    if names != [] {
      SnapshotsElsewhere(c, h, names[1..]);
    }
  }

  lemma UnitFrames(c: Conn, h: Hold, hold: Hold, m: Name, s: Stream)
    requires h in c.locals && c.locals[h].shape.Some?
    requires hold in c.locals && m in Fed(c.locals[hold])
    requires m in c.locals[hold].feeds || h != hold ==> s.lane.open
    ensures var l := c.locals[h];
            var frames := [ShapeFrame(h, l.shape.value, Listed(l))] + Snapshots(c, h, Listed(l));
            FlowAll(c.locals[hold].contract, s, hold, m, frames) ==
            if h == hold && m !in l.feeds then Stream(false, Lane(true, Some(Fresh(ValueOf(c, hold, m))))) else s
  {
    var l, k := c.locals[h], c.locals[hold].contract;
    ListedIs(l);
    var shape := ShapeFrame(h, l.shape.value, Listed(l));
    var frames := [shape] + Snapshots(c, h, Listed(l));
    assert frames[0] == shape && frames[1..] == Snapshots(c, h, Listed(l));
    SnapshotsFlow(k, c, Flow(k, s, hold, m, shape), h, hold, m, Listed(l));
  }

  /** A connection whose slots were not touched still serves, if its holds do. */
  lemma ServingWith(c: Conn, o: Out, locals: map<Hold, Local>, values: map<(Hold, Name), Value>)
    requires Serving(c) && o.slots == c.out.slots && o.order == c.out.order && locals.Keys == c.locals.Keys
    requires forall h :: h in locals ==> locals[h].feeds.Keys <= Fed(locals[h])
    requires forall h :: h in locals && locals[h].feeds != map[] ==> locals[h].unitSent
    requires forall h :: h in locals ==> c.locals[h].feeds.Keys <= locals[h].feeds.Keys
    ensures Serving(Conn(o, locals, values))
  {
  }

  lemma SendUnitServing(cfg: Config, c: Conn, h: Hold)
    requires Serving(c)
    ensures Serving(SendUnit(cfg, c, h))
  {
    TakeOutServing(cfg, c, UnitKey(h));
    var c0 := c.(out := Remove(c.out, UnitKey(h)));
    assert Serving(c0) by {
      if UnitKey(h) in c.out.slots { RemoveKeeps(c.out, UnitKey(h)); }
    }
    if h in c.locals && c.locals[h].shape.Some? {
      var l := c.locals[h];
      ListedIs(l);
      var frames := [ShapeFrame(h, l.shape.value, Listed(l))] + Snapshots(c, h, Listed(l));
      SendAllOrdered(cfg, c0.out, frames);
      var end := SendUnit(cfg, c, h);
      ServingWith(c0, end.out, end.locals, end.values);
    }
  }

  lemma SendUnitKeeps(cfg: Config, c: Conn, h: Hold, hold: Hold, m: Name, start: Stream, resync: bool)
    requires Serving(c) && Delivers(c, hold, m, start, resync)
    ensures Serving(SendUnit(cfg, c, h)) && Delivers(SendUnit(cfg, c, h), hold, m, start, resync)
  {
    SendUnitServing(cfg, c, h);
    if h in c.locals && c.locals[h].shape.Some? {
      SendUnitDelivers(cfg, c, h, hold, m, start, resync);
    }
  }

  lemma SendUnitDelivers(cfg: Config, c: Conn, h: Hold, hold: Hold, m: Name, start: Stream, resync: bool)
    requires Serving(c) && Delivers(c, hold, m, start, resync)
    requires h in c.locals && c.locals[h].shape.Some?
    ensures Delivers(SendUnit(cfg, c, h), hold, m, start, resync)
  {
    var l := c.locals[h];
    ListedIs(l);
    var frames := [ShapeFrame(h, l.shape.value, Listed(l))] + Snapshots(c, h, Listed(l));
    SendAllOrdered(cfg, Remove(c.out, UnitKey(h)), frames);
    var end := SendUnit(cfg, c, h);
    assert SlotOf(end.out, StreamKey(hold, m)) == SlotOf(c.out, StreamKey(hold, m));
    if hold in end.locals && m in end.locals[hold].feeds {
      var k := c.locals[hold].contract;
      FlowConcat(k, start, hold, m, c.out.wire, frames);
      UnitFrames(c, h, hold, m, FlowAll(k, start, hold, m, c.out.wire));
      FreshMatches(ValueOf(c, hold, m));
    }
  }

  lemma ResendServing(cfg: Config, c: Conn, h: Hold, n: Name)
    requires Serving(c)
    ensures Serving(Resend(cfg, c, h, n))
  {
    if h in c.locals && n in c.locals[h].feeds {
      var end := Resend(cfg, c, h, n);
      ServingWith(c, end.out, end.locals, end.values);
    }
  }

  lemma ResendFlow(c: Conn, h: Hold, n: Name, hold: Hold, m: Name, start: Stream)
    requires hold in c.locals
    ensures var k, f := c.locals[hold].contract, FullFrame(h, n, ValueOf(c, h, n));
            FlowAll(k, start, hold, m, c.out.wire + [f])
            == if (h, n) == (hold, m) then FlowBase(FlowAll(k, start, hold, m, c.out.wire), Some(ValueOf(c, hold, m)))
               else FlowAll(k, start, hold, m, c.out.wire)
  {
    var k, f := c.locals[hold].contract, FullFrame(h, n, ValueOf(c, h, n));
    FlowConcat(k, start, hold, m, c.out.wire, [f]);
    FlowOne(k, FlowAll(k, start, hold, m, c.out.wire), hold, m, f);
  }

  lemma ResendKeeps(cfg: Config, c: Conn, h: Hold, n: Name, hold: Hold, m: Name, start: Stream, resync: bool)
    requires Serving(c)
    requires (h, n) != (hold, m) ==> Delivers(c, hold, m, start, resync)
    requires (h, n) == (hold, m) && h in c.locals && n in c.locals[h].feeds ==>
               FlowAll(c.locals[h].contract, start, hold, m, c.out.wire).lane.open && StreamKey(h, n) !in c.out.slots
    ensures Serving(Resend(cfg, c, h, n)) && Delivers(Resend(cfg, c, h, n), hold, m, start, resync)
  {
    ResendServing(cfg, c, h, n);
    hide Serving;
    if h in c.locals && n in c.locals[h].feeds && hold in c.locals && m in c.locals[hold].feeds {
      ResendFlow(c, h, n, hold, m, start);
      FreshMatches(ValueOf(c, hold, m));
    }
  }

  /** A slot that is not this member's leaves. */
  lemma TakeOutServing(cfg: Config, c: Conn, key: Key)
    requires Serving(c)
    ensures Serving(c.(out := TakeOut(c.out, key)))
  {
    TakeOutKeeps(cfg, c.out, key);
  }

  lemma FlushFirstKeeps(cfg: Config, c: Conn, hold: Hold, m: Name, start: Stream, resync: bool)
    requires Serving(c) && Delivers(c, hold, m, start, resync) && c.out.order != []
    requires c.out.order[0] in c.out.slots
    ensures Serving(FlushFirst(cfg, c)) && Delivers(FlushFirst(cfg, c), hold, m, start, resync)
  {
    var key := c.out.order[0];
    var slot := c.out.slots[key];
    var c0 := c.(out := TakeOut(c.out, key));
    TakeOutServing(cfg, c, key);
    match key
    case UnitKey(h) => SendUnitKeeps(cfg, c0, h, hold, m, start, resync);
    case StreamKey(h, n) =>
      if slot.lazy {
        if !slot.relayed { ResendKeeps(cfg, c0, h, n, hold, m, start, resync); }
      } else {
        SendAllOrdered(cfg, c0.out, SlotFrames(key, slot));
        ServingWith(c0, SendAll(cfg, c0.out, SlotFrames(key, slot)), c.locals, c.values);
        SlotSentDelivers(c, SendAll(cfg, c0.out, SlotFrames(key, slot)), key, hold, m, start, resync);
      }
  }

  /** One slot leaves the queue for the wire. */
  lemma SlotSentDelivers(c: Conn, o: Out, key: Key, hold: Hold, m: Name, start: Stream, resync: bool)
    requires Delivers(c, hold, m, start, resync) && key in c.out.slots && key.StreamKey?
    requires c.out.slots[key].StreamSlot? && !c.out.slots[key].lazy
    requires o.slots == c.out.slots - {key} && o.wire == c.out.wire + SlotFrames(key, c.out.slots[key])
    ensures Delivers(c.(out := o), hold, m, start, resync)
  {
    if hold in c.locals && m in c.locals[hold].feeds {
      var k, slot := c.locals[hold].contract, c.out.slots[key];
      var s := FlowAll(k, start, hold, m, c.out.wire);
      FlowConcat(k, start, hold, m, c.out.wire, SlotFrames(key, slot));
      if key == StreamKey(hold, m) {
        SettleFlush(k, s, hold, m, slot, ValueOf(c, hold, m), c.locals[hold].feeds[m], resync);
      } else {
        FlowAllUnrelated(k, s, hold, m, SlotFrames(key, slot));
      }
    }
  }

  lemma {:induction false} FlushKeeps(cfg: Config, c: Conn, hold: Hold, m: Name, start: Stream, resync: bool)
    requires Serving(c) && Delivers(c, hold, m, start, resync)
    ensures Serving(Flush(cfg, c)) && Delivers(Flush(cfg, c), hold, m, start, resync)
    decreases |c.out.order|
  {
    if c.out.order != [] && !WindowFull(cfg, c.out) {
      FlushFirstOrdered(cfg, c);
      FlushFirstKeeps(cfg, c, hold, m, start, resync);
      FlushKeeps(cfg, FlushFirst(cfg, c), hold, m, start, resync);
    }
  }

  lemma QueueUnitKeeps(cfg: Config, c: Conn, h: Hold, hold: Hold, m: Name, start: Stream, resync: bool)
    requires Serving(c) && Delivers(c, hold, m, start, resync)
    ensures Serving(QueueUnit(cfg, c, h)) && Delivers(QueueUnit(cfg, c, h), hold, m, start, resync)
  {
    var key := UnitKey(h);
    var o := if key in c.out.slots then c.out else Put(c.out, key, UnitSlot);
    PutOrdered(c.out, key, UnitSlot);
    FlushKeeps(cfg, c.(out := o), hold, m, start, resync);
  }

  /** As `Serving`, but the shape or the wish of hold `h` just changed: some feeds may not belong to it. */
  ghost predicate ServingBut(c: Conn, h: Hold) {
    && Ordered(c.out)
    && (forall x :: x in c.locals && x != h ==> c.locals[x].feeds.Keys <= Fed(c.locals[x]))
    && (forall x :: x in c.locals && c.locals[x].feeds != map[] ==> c.locals[x].unitSent)
    && (forall k :: k in c.out.slots && k.StreamKey? && k.hold in c.locals ==>
          k.m in c.locals[k.hold].feeds && !c.out.slots[k].relayed)
  }

  lemma EndFeedsSlots(cfg: Config, c: Conn, h: Hold, gone: set<Name>)
    requires Ordered(c.out) && h in c.locals
    ensures var end := EndFeeds(c, h, gone);
            && Ordered(end.out) && end.out.wire == c.out.wire
            && (forall k :: k in end.out.slots <==> k in c.out.slots && !(k.StreamKey? && k.hold == h && k.m in gone))
            && (forall k :: k in end.out.slots ==> end.out.slots[k] == c.out.slots[k])
  {
    var doomed := set n | n in gone :: StreamKey(h, n);
    DropKeysKeeps(cfg, c.out, doomed, c.out.order);
    DropKeysIs(c.out, doomed, c.out.order);
    forall k ensures k in doomed <==> k.StreamKey? && k.hold == h && k.m in gone {
      if k.StreamKey? && k.hold == h && k.m in gone { assert k == StreamKey(h, k.m); }
    }
  }

  lemma EndFeedsServing(cfg: Config, c: Conn, h: Hold, gone: set<Name>)
    requires ServingBut(c, h) && h in c.locals && c.locals[h].feeds.Keys - gone <= Fed(c.locals[h])
    ensures Serving(EndFeeds(c, h, gone))
  {
    EndFeedsSlots(cfg, c, h, gone);
    var end := EndFeeds(c, h, gone);
    forall k | k in end.out.slots && k.StreamKey? && k.hold in end.locals
      ensures k.m in end.locals[k.hold].feeds && !end.out.slots[k].relayed
    {
      assert k in c.out.slots;
    }
  }

  lemma EndFeedsDelivers(cfg: Config, c: Conn, h: Hold, gone: set<Name>, hold: Hold, m: Name, start: Stream, resync: bool)
    requires Ordered(c.out) && h in c.locals && Delivers(c, hold, m, start, resync)
    ensures Delivers(EndFeeds(c, h, gone), hold, m, start, resync)
  {
    EndFeedsSlots(cfg, c, h, gone);
    var end := EndFeeds(c, h, gone);
    if hold in end.locals && m in end.locals[hold].feeds {
      assert SlotOf(end.out, StreamKey(hold, m)) == SlotOf(c.out, StreamKey(hold, m));
    }
  }

  lemma UnitKeeps(cfg: Config, c: Conn, h: Hold, hold: Hold, m: Name, start: Stream, resync: bool)
    requires ServingBut(c, h) && Delivers(c, hold, m, start, resync)
    requires h in c.locals && c.locals[h].shape.None? ==> c.locals[h].feeds == map[]
    ensures Serving(Unit(cfg, c, h)) && Delivers(Unit(cfg, c, h), hold, m, start, resync)
  {
    if h in c.locals && c.locals[h].shape.Some? {
      var l := c.locals[h];
      EndFeedsServing(cfg, c, h, l.feeds.Keys - Fed(l));
      EndFeedsDelivers(cfg, c, h, l.feeds.Keys - Fed(l), hold, m, start, resync);
      var c1 := EndFeeds(c, h, l.feeds.Keys - Fed(l));
      if c1.locals[h].feeds == map[] && !(l.again && !l.unitSent) {
        SendUnitKeeps(cfg, c1, h, hold, m, start, resync);
      } else {
        QueueUnitKeeps(cfg, c1, h, hold, m, start, resync);
      }
    }
  }

  // ---------------------------------------------------------------- the operations of a served hold

  lemma ShapeChangedKeeps(cfg: Config, c: Conn, h: Hold, shape: Shape, hold: Hold, m: Name, start: Stream, resync: bool)
    requires Serving(c) && Delivers(c, hold, m, start, resync)
    ensures Serving(ShapeChanged(cfg, c, h, shape))
    ensures Delivers(ShapeChanged(cfg, c, h, shape), hold, m, start, resync)
  {
    if h in c.locals {
      UnitKeeps(cfg, c.(locals := c.locals[h := c.locals[h].(shape := Some(shape))]), h, hold, m, start, resync);
    }
  }

  /** A state frame is sent or kept waiting: other streams at most lose what waits to a lazy reset. */
  lemma SendStateServing(cfg: Config, c: Conn, f: Frame, relayed: bool)
    requires Serving(c) && (f.FullFrame? || f.OpsFrame?)
    requires f.hold in c.locals ==> f.m in c.locals[f.hold].feeds && !relayed
    ensures Serving(c.(out := SendState(cfg, c.out, f, relayed).out))
  {
    var key := StreamKey(f.hold, f.m);
    if key !in c.out.slots && !WindowFull(cfg, c.out) {
      ServingWith(c, Send(cfg, c.out, f), c.locals, c.values);
    } else if key in c.out.slots {
      WaitsServing(cfg, c, key, f);
    } else {
      var empty := EMPTY_SLOT.(relayed := relayed);
      PutServing(c, key, empty, c.out.pendingBytes);
      WaitsServing(cfg, c.(out := Put(c.out, key, empty)), key, f);
    }
  }

  lemma WaitsServing(cfg: Config, c: Conn, key: Key, f: Frame)
    requires Serving(c) && key in c.out.slots && key.StreamKey?
    ensures c.out.slots[key].StreamSlot?
    ensures f.FullFrame? ==> Serving(c.(out := Rebase(c.out, key, f.value)))
    ensures f.OpsFrame? ==> Serving(c.(out := Append(cfg, c.out, key, f.ops).out))
  {
    hide Append;
    var st := c.out.slots[key];
    assert st.StreamSlot?;
    if f.FullFrame? {
      PutServing(c, key, st.(base := Some(f.value), ops := [], size := 0, lazy := false), c.out.pendingBytes - st.size);
    } else if f.OpsFrame? {
      AppendServing(cfg, c, key, f.ops);
    }
  }

  lemma PutServing(c: Conn, key: Key, slot: Slot, bytes: int)
    requires Serving(c) && key.StreamKey? && slot.StreamSlot?
    requires key.hold in c.locals ==> key.m in c.locals[key.hold].feeds && !slot.relayed
    ensures Serving(c.(out := Put(c.out, key, slot).(pendingBytes := bytes)))
    ensures bytes == c.out.pendingBytes ==> Serving(c.(out := Put(c.out, key, slot)))
  {
    PutKeeps(c.out, key, slot);
    assert Ordered(Put(c.out, key, slot).(pendingBytes := bytes));
  }

  lemma {:induction false} MakeRoomServing(cfg: Config, c: Conn, size: nat, current: Key, keys: seq<Key>)
    requires Serving(c) && current in c.out.slots && c.out.slots[current].StreamSlot?
    ensures Serving(c.(out := MakeRoom(cfg, c.out, size, current, keys).out))
    decreases |keys|
  {
    if c.out.pendingBytes + size <= cfg.cap {
    } else if keys == [] {
      DropServing(cfg, c, current);
    } else {
      var x := keys[0];
      if x != current && x in c.out.slots && c.out.slots[x].StreamSlot? && c.out.slots[x].size > 0 {
        DropServing(cfg, c, x);
        MakeRoomServing(cfg, c.(out := Drop(c.out, x).out), size, current, keys[1..]);
      } else {
        MakeRoomServing(cfg, c, size, current, keys[1..]);
      }
    }
  }

  lemma DropServing(cfg: Config, c: Conn, key: Key)
    requires Serving(c) && key in c.out.slots && c.out.slots[key].StreamSlot?
    ensures Serving(c.(out := Drop(c.out, key).out))
  {
    if c.out.slots[key].relayed {
      TakeOutKeeps(cfg, c.out, key);
    } else {
      var less := c.(out := c.out.(pendingBytes := c.out.pendingBytes - c.out.slots[key].size));
      PutServing(less, key, StreamSlot(None, [], 0, true, false), less.out.pendingBytes);
    }
  }

  lemma AppendServing(cfg: Config, c: Conn, key: Key, ops: seq<WireOp>)
    requires Serving(c) && key in c.out.slots && c.out.slots[key].StreamSlot?
    ensures Serving(c.(out := Append(cfg, c.out, key, ops).out))
  {
    if !c.out.slots[key].lazy {
      var size := cfg.opsSize(ops);
      MakeRoomServing(cfg, c, size, key, c.out.order);
      var out := MakeRoom(cfg, c.out, size, key, c.out.order).out;
      if key in out.slots && out.slots[key].StreamSlot? && !out.slots[key].lazy {
        var slot := out.slots[key];
        PutServing(c.(out := out), key, slot.(ops := slot.ops + ops, size := slot.size + size),
                   out.pendingBytes + size);
      }
    }
  }

  /** What sending a state frame does to one key: nothing or a drop, unless it is the frame's own. */
  lemma SendStateIs(cfg: Config, o: Out, f: Frame, relayed: bool, k: Key)
    requires f.FullFrame? || f.OpsFrame?
    ensures var e := SendState(cfg, o, f, relayed);
            var key := StreamKey(f.hold, f.m);
            && (e.out.wire == o.wire || (e.out.wire == o.wire + [f] && e.out.slots == o.slots && e.resyncs == []
                                         && key !in o.slots))
            && (k != key ==> KeptOrDropped(o, e, k))
            && (key !in o.slots && e.out.wire == o.wire ==> WindowFull(cfg, o))
  {
    var key := StreamKey(f.hold, f.m);
    if key !in o.slots && !WindowFull(cfg, o) {
    } else if key in o.slots && o.slots[key].UnitSlot? {
    } else {
      var o1 := if key in o.slots then o else Put(o, key, EMPTY_SLOT.(relayed := relayed));
      if f.OpsFrame? && !o1.slots[key].lazy {
        MakeRoomIs(cfg, o1, cfg.opsSize(f.ops), key, o1.order, k);
      }
    }
  }

  /** The frame's own slot when it waits. */
  lemma SendStateOwn(cfg: Config, o: Out, f: Frame, relayed: bool)
    requires (f.FullFrame? || f.OpsFrame?) && (StreamKey(f.hold, f.m) in o.slots || WindowFull(cfg, o))
    requires StreamKey(f.hold, f.m) in o.slots ==> o.slots[StreamKey(f.hold, f.m)].StreamSlot?
    ensures var e := SendState(cfg, o, f, relayed);
            var key := StreamKey(f.hold, f.m);
            var st := if key in o.slots then o.slots[key] else EMPTY_SLOT.(relayed := relayed);
            && e.out.wire == o.wire
            && (f.FullFrame? ==>
                  && SlotOf(e.out, key) == Some(st.(base := Some(f.value), ops := [], size := 0, lazy := false))
                  && e.resyncs == [])
            && (f.OpsFrame? ==>
                  if st.lazy then SlotOf(e.out, key) == Some(st) && e.resyncs == []
                  else
                    || (key in e.out.slots && key !in e.resyncs
                        && exists size: nat :: e.out.slots[key] == st.(ops := st.ops + f.ops, size := size))
                    || (!st.relayed && key in e.out.slots && IsLazy(SlotOf(e.out, key)) && !e.out.slots[key].relayed)
                    || (st.relayed && key !in e.out.slots && key in e.resyncs))
  {
    var key := StreamKey(f.hold, f.m);
    var st := if key in o.slots then o.slots[key] else EMPTY_SLOT.(relayed := relayed);
    var o1 := if key in o.slots then o else Put(o, key, st);
    if f.OpsFrame? && !st.lazy {
      var size := cfg.opsSize(f.ops);
      MakeRoomIs(cfg, o1, size, key, o1.order, key);
      var room := MakeRoom(cfg, o1, size, key, o1.order);
      if key in room.out.slots && room.out.slots[key] == st {
        assert Append(cfg, o1, key, f.ops).out.slots[key] == st.(ops := st.ops + f.ops, size := st.size + size);
      }
    }
  }

  /** Another stream's frame is sent or waits. */
  lemma OtherStreamDelivers(cfg: Config, c: Conn, f: Frame, hold: Hold, m: Name, start: Stream, resync: bool)
    requires Serving(c) && Delivers(c, hold, m, start, resync)
    requires (f.FullFrame? || f.OpsFrame?) && (f.hold, f.m) != (hold, m)
    ensures Delivers(c.(out := SendState(cfg, c.out, f, false).out), hold, m, start, resync)
  {
    if hold in c.locals && m in c.locals[hold].feeds {
      var k := c.locals[hold].contract;
      var s := FlowAll(k, start, hold, m, c.out.wire);
      SendStateIs(cfg, c.out, f, false, StreamKey(hold, m));
      FlowConcat(k, start, hold, m, c.out.wire, [f]);
      FlowOne(k, s, hold, m, f);
      FlowUnrelated(k, s, hold, m, f);
    }
  }

  /** The claim of one member does not depend on the encoders and values of others. */
  lemma DeliversFrame(c: Conn, d: Conn, hold: Hold, m: Name, start: Stream, resync: bool)
    requires Delivers(c, hold, m, start, resync) && d.out == c.out && ValueOf(d, hold, m) == ValueOf(c, hold, m)
    requires hold in d.locals && m in d.locals[hold].feeds ==>
               && hold in c.locals && m in c.locals[hold].feeds
               && d.locals[hold].feeds[m] == c.locals[hold].feeds[m] && d.locals[hold].contract == c.locals[hold].contract
    ensures Delivers(d, hold, m, start, resync)
  {
  }

  lemma ChangedServing(cfg: Config, c: Conn, h: Hold, n: Name, ops: seq<Op>)
    requires Serving(c)
    ensures Serving(Changed(cfg, c, h, n, ops).conn)
  {
    var end := Changed(cfg, c, h, n, ops).conn;
    if h in c.locals && n in c.locals[h].feeds {
      var f := OpsFrame(h, n, Encode(c.locals[h].feeds[n], ops).wire);
      SendStateServing(cfg, c, f, false);
      ServingWith(c.(out := SendState(cfg, c.out, f, false).out), end.out, end.locals, end.values);
    } else {
      ServingWith(c, end.out, end.locals, end.values);
    }
  }

  lemma ChangedOwn(cfg: Config, c: Conn, hold: Hold, m: Name, ops: seq<Op>, start: Stream, resync: bool)
    requires Serving(c) && Delivers(c, hold, m, start, resync) && WellFormed(ops)
    requires hold in c.locals && m in c.locals[hold].feeds
    ensures Delivers(Changed(cfg, c, hold, m, ops).conn, hold, m, start, resync)
  {
    var k := c.locals[hold].contract;
    var s := FlowAll(k, start, hold, m, c.out.wire);
    var f := OpsFrame(hold, m, Encode(c.locals[hold].feeds[m], ops).wire);
    OwnOpsSettle(cfg, c, hold, m, ops, s, resync);
    FlowConcat(k, start, hold, m, c.out.wire, [f]);
    FlowOne(k, s, hold, m, f);
  }

  lemma ChangedKeeps(cfg: Config, c: Conn, h: Hold, n: Name, ops: seq<Op>, hold: Hold, m: Name, start: Stream, resync: bool)
    requires Serving(c) && Delivers(c, hold, m, start, resync) && WellFormed(ops)
    ensures Serving(Changed(cfg, c, h, n, ops).conn)
    ensures Delivers(Changed(cfg, c, h, n, ops).conn, hold, m, start, resync)
  {
    ChangedServing(cfg, c, h, n, ops);
    if h in c.locals && n in c.locals[h].feeds {
      if (h, n) == (hold, m) {
        ChangedOwn(cfg, c, hold, m, ops, start, resync);
      } else {
        var f := OpsFrame(h, n, Encode(c.locals[h].feeds[n], ops).wire);
        OtherStreamDelivers(cfg, c, f, hold, m, start, resync);
        DeliversFrame(c.(out := SendState(cfg, c.out, f, false).out), Changed(cfg, c, h, n, ops).conn,
                      hold, m, start, resync);
      }
    }
  }

  lemma OwnOpsSettle(cfg: Config, c: Conn, hold: Hold, m: Name, ops: seq<Op>, s: Stream, resync: bool)
    requires Serving(c) && hold in c.locals && m in c.locals[hold].feeds && WellFormed(ops)
    requires Settles(c.locals[hold].contract, s, hold, m, SlotOf(c.out, StreamKey(hold, m)), ValueOf(c, hold, m),
                     c.locals[hold].feeds[m], resync)
    ensures var l := c.locals[hold];
            var sent := Encode(l.feeds[m], ops);
            var f := OpsFrame(hold, m, sent.wire);
            var e := SendState(cfg, c.out, f, false);
            && (e.out.wire == c.out.wire || e.out.wire == c.out.wire + [f])
            && Settles(l.contract, if e.out.wire == c.out.wire then s else Flow(l.contract, s, hold, m, f), hold, m,
                       SlotOf(e.out, StreamKey(hold, m)), ApplyAll(ValueOf(c, hold, m), ops), sent.encoder, resync)
  {
    var l := c.locals[hold];
    var key := StreamKey(hold, m);
    var v, e0 := ValueOf(c, hold, m), l.feeds[m];
    var sent := Encode(e0, ops);
    var f := OpsFrame(hold, m, sent.wire);
    var slot := SlotOf(c.out, key);
    var e := SendState(cfg, c.out, f, false);
    SendStateIs(cfg, c.out, f, false, key);
    if slot.None? && !WindowFull(cfg, c.out) {
      SettleOps(l.contract, s, hold, m, None, v, e0, resync, ops, 0);
      assert c.out.wire != c.out.wire + [f] by { assert |c.out.wire| != |c.out.wire + [f]|; }
    } else {
      SendStateOwn(cfg, c.out, f, false);
      var st := if key in c.out.slots then c.out.slots[key] else EMPTY_SLOT;
      if !st.lazy && key in e.out.slots && !IsLazy(SlotOf(e.out, key)) {
        var size: nat :| e.out.slots[key] == st.(ops := st.ops + sent.wire, size := size);
        SettleOps(l.contract, s, hold, m, slot, v, e0, resync, ops, size);
      }
    }
  }

  lemma ReplacedServing(cfg: Config, c: Conn, h: Hold, n: Name, value: Value)
    requires Serving(c)
    ensures Serving(Replaced(cfg, c, h, n, value).conn)
  {
    var end := Replaced(cfg, c, h, n, value).conn;
    if h in c.locals && n in c.locals[h].feeds {
      var f := FullFrame(h, n, value);
      SendStateServing(cfg, c, f, false);
      ServingWith(c.(out := SendState(cfg, c.out, f, false).out), end.out, end.locals, end.values);
    } else {
      ServingWith(c, end.out, end.locals, end.values);
    }
  }

  lemma ReplacedOwn(cfg: Config, c: Conn, hold: Hold, m: Name, value: Value, start: Stream, resync: bool)
    requires Serving(c) && Delivers(c, hold, m, start, resync)
    requires hold in c.locals && m in c.locals[hold].feeds
    ensures Delivers(Replaced(cfg, c, hold, m, value).conn, hold, m, start, resync)
  {
    var k, key := c.locals[hold].contract, StreamKey(hold, m);
    var s := FlowAll(k, start, hold, m, c.out.wire);
    var f := FullFrame(hold, m, value);
    var e := SendState(cfg, c.out, f, false);
    FlowConcat(k, start, hold, m, c.out.wire, [f]);
    FlowOne(k, s, hold, m, f);
    if key in c.out.slots || WindowFull(cfg, c.out) {
      SendStateOwn(cfg, c.out, f, false);
      SettleFull(k, s, hold, m, value, resync, e.out.slots[key]);
    } else {
      SettleFull(k, s, hold, m, value, resync, EMPTY_SLOT.(base := Some(value)));
    }
  }

  lemma ReplacedKeeps(cfg: Config, c: Conn, h: Hold, n: Name, value: Value, hold: Hold, m: Name, start: Stream, resync: bool)
    requires Serving(c) && Delivers(c, hold, m, start, resync)
    ensures Serving(Replaced(cfg, c, h, n, value).conn)
    ensures Delivers(Replaced(cfg, c, h, n, value).conn, hold, m, start, resync)
  {
    ReplacedServing(cfg, c, h, n, value);
    if h in c.locals && n in c.locals[h].feeds {
      if (h, n) == (hold, m) {
        ReplacedOwn(cfg, c, hold, m, value, start, resync);
      } else {
        var f := FullFrame(h, n, value);
        OtherStreamDelivers(cfg, c, f, hold, m, start, resync);
        DeliversFrame(c.(out := SendState(cfg, c.out, f, false).out), Replaced(cfg, c, h, n, value).conn,
                      hold, m, start, resync);
      }
    }
  }

  lemma StopServing(cfg: Config, c: Conn, h: Hold)
    requires Serving(c)
    ensures Serving(OnWantState(cfg, c, h, false))
    ensures h in c.locals ==> OnWantState(cfg, c, h, false).locals[h].feeds == map[]
  {
    if h in c.locals {
      if !c.locals[h].wantsState { assert c.locals[h].feeds.Keys == {}; }
      var doomed := KeysOfHold(c.out, h);
      DropKeysKeeps(cfg, c.out, doomed, c.out.order);
      DropKeysIs(c.out, doomed, c.out.order);
      var end := OnWantState(cfg, c, h, false);
      assert c.locals[h].wantsState ==> forall k :: k in end.out.slots <==> k in c.out.slots && k.hold != h;
    }
  }

  lemma OnWantStateKeeps(cfg: Config, c: Conn, h: Hold, wanted: bool, hold: Hold, m: Name, start: Stream, resync: bool)
    requires Serving(c) && Delivers(c, hold, m, start, resync)
    ensures Serving(OnWantState(cfg, c, h, wanted)) && Delivers(OnWantState(cfg, c, h, wanted), hold, m, start, resync)
  {
    if h in c.locals && c.locals[h].wantsState != wanted {
      var l := c.locals[h];
      if wanted {
        UnitKeeps(cfg, c.(locals := c.locals[h := l.(wantsState := true)]), h, hold, m, start, resync);
      } else {
        StopServing(cfg, c, h);
        StopDelivers(c, h, hold, m, start, resync);
      }
    }
  }

  lemma StopDelivers(c: Conn, h: Hold, hold: Hold, m: Name, start: Stream, resync: bool)
    requires Serving(c) && Delivers(c, hold, m, start, resync) && h in c.locals
    ensures Delivers(Conn(DropHoldState(c.out, h), c.locals[h := c.locals[h].(wantsState := false, feeds := map[])], c.values),
                     hold, m, start, resync)
  {
    DropKeysIs(c.out, KeysOfHold(c.out, h), c.out.order);
    if hold != h && hold in c.locals && m in c.locals[hold].feeds {
      assert SlotOf(DropHoldState(c.out, h), StreamKey(hold, m)) == SlotOf(c.out, StreamKey(hold, m));
    }
  }

  lemma LaziedServing(c: Conn, h: Hold, n: Name)
    requires Serving(c) && h in c.locals && n in c.locals[h].feeds
    ensures Serving(c.(out := Lazied(c.out, StreamKey(h, n))))
  {
    var key := StreamKey(h, n);
    var relayed := key in c.out.slots && c.out.slots[key].StreamSlot? && c.out.slots[key].relayed;
    var size := if key in c.out.slots then SizeOf(c.out.slots[key]) else 0;
    PutServing(c, key, StreamSlot(None, [], 0, true, relayed), c.out.pendingBytes - size);
  }

  lemma LaziedDelivers(c: Conn, h: Hold, n: Name, hold: Hold, m: Name, start: Stream, before: bool, resync: bool)
    requires Delivers(c, hold, m, start, before)
    requires before ==> resync || (h, n) == (hold, m)
    ensures Delivers(c.(out := Lazied(c.out, StreamKey(h, n))), hold, m, start, resync)
  {
  }

  lemma OnResyncKeeps(cfg: Config, c: Conn, h: Hold, n: Name, hold: Hold, m: Name, start: Stream, before: bool, resync: bool)
    requires Serving(c) && Delivers(c, hold, m, start, before)
    requires before ==> resync || (h, n) == (hold, m)
    ensures Serving(OnResync(cfg, c, h, n)) && Delivers(OnResync(cfg, c, h, n), hold, m, start, resync)
  {
    if h in c.locals && n in c.locals[h].feeds {
      LaziedServing(c, h, n);
      LaziedDelivers(c, h, n, hold, m, start, before, resync);
      FlushKeeps(cfg, c.(out := Lazied(c.out, StreamKey(h, n))), hold, m, start, resync);
    }
  }

  lemma OnAckKeeps(cfg: Config, c: Conn, n: nat, hold: Hold, m: Name, start: Stream, resync: bool)
    requires Serving(c) && Delivers(c, hold, m, start, resync)
    requires AckAllowed(c.out, n) && n - c.out.acked <= |c.out.unacked|
    ensures Serving(OnAck(cfg, c, n)) && Delivers(OnAck(cfg, c, n), hold, m, start, resync)
  {
    ServingWith(c, Acknowledge(c.out, n), c.locals, c.values);
    FlushKeeps(cfg, c.(out := Acknowledge(c.out, n)), hold, m, start, resync);
  }
}
