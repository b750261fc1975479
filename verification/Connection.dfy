/** One end of a link as an object whose fields change in place, proved against the functions of `Provider`. */
module LinkEnd {
  import opened DeltaCodec
  import opened Wire
  import opened Wrappers
  import opened FlowControl
  import opened Provider

  /** Taking one key more out of what is left. */
  function Kept(order: seq<Key>, gone: set<Key>): seq<Key>
    decreases |order|
  {
    if order == [] then []
    else if order[0] in gone then Kept(order[1..], gone)
    else [order[0]] + Kept(order[1..], gone)
  }

  lemma {:induction false} KeptIs(order: seq<Key>, gone: set<Key>, key: Key)
    requires NoDup(order)
    ensures Without(Kept(order, gone), key) == Kept(order, gone + {key})
    ensures forall k :: k in Kept(order, gone) <==> k in order && k !in gone
    decreases |order|
  {
    if order != [] {
      TailOf(order);
      KeptIs(order[1..], gone, key);
      if order[0] == key && key !in gone {
        KeptAbsent(order[1..], gone, key);
      }
    }
  }

  lemma {:induction false} KeptAbsent(order: seq<Key>, gone: set<Key>, key: Key)
    requires key !in order
    ensures Kept(order, gone + {key}) == Kept(order, gone)
    decreases |order|
  {
    if order != [] { KeptAbsent(order[1..], gone, key); }
  }

  lemma {:induction false} KeptAll(order: seq<Key>)
    ensures Kept(order, {}) == order
    decreases |order|
  {
    if order != [] { KeptAll(order[1..]); }
  }

  /** Everything but what waits. */
  predicate SameSent(a: Out, b: Out) {
    a.acks == b.acks && a.sent == b.sent && a.acked == b.acked && a.unacked == b.unacked
    && a.unackedBytes == b.unackedBytes && a.wire == b.wire
  }

  /** `next` is `o` without the keys of `gone`: however they were taken out. */
  ghost predicate TookOut(cfg: Config, o: Out, next: Out, gone: set<Key>) {
    && SameSent(o, next) && Accounted(cfg, next)
    && next.slots == o.slots - gone && next.order == Kept(o.order, gone)
  }

  lemma TookOutUnique(cfg: Config, o: Out, a: Out, b: Out, gone: set<Key>)
    requires TookOut(cfg, o, a, gone) && TookOut(cfg, o, b, gone)
    ensures a == b
  {
  }

  lemma TookOutNone(cfg: Config, o: Out)
    requires Accounted(cfg, o)
    ensures TookOut(cfg, o, o, {})
  {
    KeptAll(o.order);
    assert o.slots - {} == o.slots;
  }

  /** Taking out a key, waiting or not. */
  lemma TakeOutIs(o: Out, key: Key)
    requires forall k :: k in o.order <==> k in o.slots
    ensures SameSent(o, TakeOut(o, key))
    ensures TakeOut(o, key).slots == o.slots - {key} && TakeOut(o, key).order == Without(o.order, key)
  {
    if key !in o.slots {
      WithoutAbsent(o.order, key);
      assert o.slots - {key} == o.slots;
    }
  }

  lemma TookOutOne(cfg: Config, o: Out, next: Out, gone: set<Key>, key: Key)
    requires Accounted(cfg, o) && TookOut(cfg, o, next, gone)
    ensures TookOut(cfg, o, TakeOut(next, key), gone + {key})
    ensures Accounted(cfg, next)
  {
    TakeOutKeeps(cfg, next, key);
    assert NoDup(o.order);
    TakeOutIs(next, key);
    hide Accounted, Kept, Without, TakeOut, NoDup;
    KeptIs(o.order, gone, key);
    SlotsLess(o.slots, gone, key);
  }

  lemma SlotsLess(slots: map<Key, Slot>, gone: set<Key>, key: Key)
    ensures slots - gone - {key} == slots - (gone + {key})
  {
  }

  lemma {:induction false} WithoutAbsent(order: seq<Key>, key: Key)
    requires key !in order
    ensures Without(order, key) == order
    decreases |order|
  {
    if order != [] { WithoutAbsent(order[1..], key); }
  }

  lemma {:induction false} DropKeysTakesOut(cfg: Config, o: Out, next: Out, gone: set<Key>, doomed: set<Key>, keys: seq<Key>)
    requires Accounted(cfg, o) && TookOut(cfg, o, next, gone)
    ensures TookOut(cfg, o, DropKeys(next, doomed, keys), gone + (set k | k in keys && k in doomed))
    decreases |keys|
  {
    if keys == [] {
      assert gone + (set k | k in keys && k in doomed) == gone;
    } else {
      var k := keys[0];
      if k in doomed {
        TookOutOne(cfg, o, next, gone, k);
        DropKeysTakesOut(cfg, o, TakeOut(next, k), gone + {k}, doomed, keys[1..]);
      } else {
        DropKeysTakesOut(cfg, o, next, gone, doomed, keys[1..]);
      }
      var all, rest := (set x | x in keys && x in doomed), (set x | x in keys[1..] && x in doomed);
      assert all == rest + (if k in doomed then {k} else {});
      assert gone + all == (if k in doomed then gone + {k} else gone) + rest;
    }
  }

  lemma {:induction false} KeptFrom(order: seq<Key>, a: set<Key>, b: set<Key>)
    requires forall k :: k in order ==> (k in a <==> k in b)
    ensures Kept(order, a) == Kept(order, b)
    decreases |order|
  {
    if order != [] {
      assert order[0] in order;
      KeptFrom(order[1..], a, b);
    }
  }

  /** Looking through the waiting slots for doomed ones is taking the doomed ones out, in any order. */
  lemma DropKeysIsTakeOut(cfg: Config, o: Out, doomed: set<Key>)
    requires Accounted(cfg, o)
    ensures TookOut(cfg, o, DropKeys(o, doomed, o.order), doomed)
  {
    TookOutNone(cfg, o);
    DropKeysTakesOut(cfg, o, o, {}, doomed, o.order);
    var found := {} + (set k | k in o.order && k in doomed);
    KeptFrom(o.order, found, doomed);
    assert o.slots - found == o.slots - doomed;
  }

  lemma MinusNone(feeds: map<Name, Encoder>, gone: set<Name>)
    ensures feeds == feeds - (gone - gone)
  {
    assert gone - gone == {};
  }

  lemma MinusOne(feeds: map<Name, Encoder>, gone: set<Name>, left: set<Name>, n: Name)
    requires n in left && left <= gone
    ensures feeds - (gone - left) - {n} == feeds - (gone - (left - {n}))
    ensures gone - (left - {n}) == gone - left + {n}
  {
    assert gone - (left - {n}) == gone - left + {n};
  }

  lemma AckFits(cfg: Config, o: Out, n: nat)
    requires Accounted(cfg, o) && AckAllowed(o, n)
    ensures n - o.acked <= |o.unacked|
    ensures Sum([]) == 0
  {
  }

  lemma SumAppend(sizes: seq<nat>, size: nat)
    ensures Sum(sizes + [size]) == Sum(sizes) + size
  {
    SumConcat(sizes, [size]);
    assert [size][1..] == [];
  }

  lemma OldestSlot(cfg: Config, o: Out)
    requires Accounted(cfg, o) && o.order != []
    ensures o.order[0] in o.slots && (o.order[0].UnitKey? <==> o.slots[o.order[0]].UnitSlot?)
  {
    assert o.order[0] in o.order;
  }

  function Before(resyncs: seq<Key>, e: Effect): Effect {
    e.(resyncs := resyncs + e.resyncs)
  }

  lemma MakeRoomStep(cfg: Config, o: Out, size: nat, current: Key, keys: seq<Key>, i: nat, resyncs: seq<Key>)
    requires i < |keys| && current in o.slots && o.slots[current].StreamSlot?
    ensures var all := Before(resyncs, FlowControl.MakeRoom(cfg, o, size, current, keys[i..]));
            var k := keys[i];
            if o.pendingBytes + size <= cfg.cap then all == Effect(o, resyncs)
            else if k != current && k in o.slots && o.slots[k].StreamSlot? && o.slots[k].size > 0 then
              var d := Drop(o, k);
              all == Before(resyncs + d.resyncs, FlowControl.MakeRoom(cfg, d.out, size, current, keys[i + 1..]))
            else all == Before(resyncs, FlowControl.MakeRoom(cfg, o, size, current, keys[i + 1..]))
  {
    assert keys[i..][0] == keys[i] && keys[i..][1..] == keys[i + 1..];
  }

  lemma MakeRoomEnds(cfg: Config, o: Out, size: nat, current: Key, keys: seq<Key>, resyncs: seq<Key>)
    requires current in o.slots && o.slots[current].StreamSlot?
    ensures Before(resyncs, FlowControl.MakeRoom(cfg, o, size, current, keys[|keys|..]))
         == if o.pendingBytes + size <= cfg.cap then Effect(o, resyncs) else Before(resyncs, Drop(o, current))
  {
  }

  class Connection {
    const cfg: Config
    var peerAcks: Option<bool>
    var sent: nat
    var acked: nat
    var unacked: seq<nat>
    var unackedBytes: int
    var slots: map<Key, Slot>
    var order: seq<Key>
    var pendingBytes: int
    /** What the link carries and the peer has not taken yet. */
    var wire: seq<Frame>
    var served: map<Hold, Local>
    /** The served objects' current values. */
    var values: map<(Hold, Name), Value>

    function Queue(): Out
      reads this
    {
      Out(peerAcks, sent, acked, unacked, unackedBytes, slots, order, pendingBytes, wire)
    }

    function View(): Conn
      reads this
    {
      Conn(Queue(), served, values)
    }

    ghost predicate Valid()
      reads this
    {
      Accounted(cfg, Queue())
    }

    constructor (cfg: Config, served: map<Hold, Local>, values: map<(Hold, Name), Value>)
      ensures this.cfg == cfg && Valid()
      ensures View() == Conn(Out(None, 0, 0, [], 0, map[], [], 0, []), served, values)
    {
      this.cfg := cfg;
      peerAcks, sent, acked, unacked, unackedBytes := None, 0, 0, [], 0;
      slots, order, pendingBytes, wire := map[], [], 0, [];
      this.served, this.values := served, values;
    }

    predicate Full()
      reads this
    {
      peerAcks == Some(true) && unackedBytes >= cfg.window
    }

    method Send(f: Frame)
      modifies this
      ensures View() == old(View()).(out := FlowControl.Send(cfg, old(Queue()), f))
      ensures old(Valid()) ==> Valid()
    {
      SendKept(f);
      wire := wire + [f];
      if peerAcks == Some(false) { return; }
      sent := sent + 1;
      unacked := unacked + [cfg.frameSize(f)];
      unackedBytes := unackedBytes + cfg.frameSize(f);
    }

    lemma SendKept(f: Frame)
      ensures Valid() ==> Accounted(cfg, FlowControl.Send(cfg, Queue(), f))
    {
      if Valid() { SendKeeps(cfg, Queue(), f); }
    }

    method SetSlot(key: Key, slot: Slot)
      modifies this`slots, this`order
      ensures Queue() == Put(old(Queue()), key, slot)
    {
      if key !in slots { order := order + [key]; }
      slots := slots[key := slot];
    }

    method DeleteSlot(key: Key)
      modifies this`slots, this`order
      ensures Queue() == Remove(old(Queue()), key)
    {
      if key in slots {
        slots := slots - {key};
        order := Without(order, key);
      }
    }

    /** A state frame is sent, or waits.  `resyncs`: the relayed streams that must ask for a reset. */
    method SendState(f: Frame, relayed: bool) returns (resyncs: seq<Key>)
      requires Valid() && (f.FullFrame? || f.OpsFrame?)
      modifies this
      ensures var e := FlowControl.SendState(cfg, old(Queue()), f, relayed);
              View() == old(View()).(out := e.out) && resyncs == e.resyncs
      ensures Valid()
    {
      resyncs := [];
      SendStateKeeps(cfg, Queue(), f, relayed);
      var key := StreamKey(f.hold, f.m);
      if key !in slots && !Full() {
        Send(f);
        return;
      }
      if key in slots && slots[key].UnitSlot? { return; }
      if key !in slots { SetSlot(key, EMPTY_SLOT.(relayed := relayed)); }
      if f.FullFrame? {
        pendingBytes := pendingBytes - slots[key].size;
        SetSlot(key, slots[key].(base := Some(f.value), ops := [], size := 0, lazy := false));
        return;
      }
      resyncs := AppendOps(key, f.ops);
    }

    /** Ops join the slot of their stream, if they fit; a lazy reset already covers them. */
    method AppendOps(key: Key, ops: seq<WireOp>) returns (resyncs: seq<Key>)
      requires key in slots && slots[key].StreamSlot?
      modifies this`slots, this`order, this`pendingBytes
      ensures var e := Append(cfg, old(Queue()), key, ops); Queue() == e.out && resyncs == e.resyncs
    {
      resyncs := [];
      if slots[key].lazy { return; }
      var size := cfg.opsSize(ops);
      if pendingBytes + size > cfg.cap { resyncs := MakeRoom(size, key); }
      if key !in slots || slots[key].UnitSlot? || slots[key].lazy { return; }
      SetSlot(key, slots[key].(ops := slots[key].ops + ops, size := slots[key].size + size));
      pendingBytes := pendingBytes + size;
    }

    /** Room under the cap for `size` bytes, at the cost of other streams first and of `current` itself last. */
    method MakeRoom(size: nat, current: Key) returns (resyncs: seq<Key>)
      requires current in slots && slots[current].StreamSlot?
      modifies this`slots, this`order, this`pendingBytes
      ensures var e := FlowControl.MakeRoom(cfg, old(Queue()), size, current, old(order));
              Queue() == e.out && resyncs == e.resyncs
    {
      hide FlowControl.MakeRoom, Ordered, Accounted;
      resyncs := [];
      var keys, i := order, 0;
      assert keys[0..] == keys;
      while i < |keys|
        invariant 0 <= i <= |keys|
        invariant current in slots && slots[current].StreamSlot?
        invariant FlowControl.MakeRoom(cfg, old(Queue()), size, current, old(order))
               == Before(resyncs, FlowControl.MakeRoom(cfg, Queue(), size, current, keys[i..]))
      {
        MakeRoomStep(cfg, Queue(), size, current, keys, i, resyncs);
        if pendingBytes + size <= cfg.cap { return; }
        var k := keys[i];
        if k != current && k in slots && slots[k].StreamSlot? && slots[k].size > 0 {
          var asked := DropWaiting(k);
          resyncs := resyncs + asked;
        }
        i := i + 1;
      }
      MakeRoomEnds(cfg, Queue(), size, current, keys, resyncs);
      if pendingBytes + size > cfg.cap {
        var asked := DropWaiting(current);
        resyncs := resyncs + asked;
      }
    }

    /** One slot gives its bytes back.  Who holds the value keeps a lazy slot; a relay, which does not, loses it. */
    method DropWaiting(key: Key) returns (resyncs: seq<Key>)
      requires key in slots && slots[key].StreamSlot?
      modifies this`slots, this`order, this`pendingBytes
      ensures var e := Drop(old(Queue()), key); Queue() == e.out && resyncs == e.resyncs
    {
      pendingBytes := pendingBytes - slots[key].size;
      if slots[key].relayed {
        DeleteSlot(key);
        return [key];
      }
      SetSlot(key, StreamSlot(None, [], 0, true, false));
      return [];
    }

    /** The slot under `key`, if there is one, and its bytes are gone. */
    method DropState(hold: Hold, m: Name)
      modifies this`slots, this`order, this`pendingBytes
      ensures Queue() == FlowControl.DropState(old(Queue()), StreamKey(hold, m))
    {
      var key := StreamKey(hold, m);
      if key !in slots || !slots[key].StreamSlot? { return; }
      pendingBytes := pendingBytes - slots[key].size;
      DeleteSlot(key);
    }

    /** No slot of hold `h` is left, neither its unit nor a stream; others stay in order. */
    method DropHoldState(hold: Hold)
      requires Valid()
      modifies this`slots, this`order, this`pendingBytes
      ensures Queue() == FlowControl.DropHoldState(old(Queue()), hold) && Valid()
    {
      hide Accounted, Ordered;
      var keys, i := order, 0;
      ghost var doomed := KeysOfHold(Queue(), hold);
      while i < |keys|
        invariant 0 <= i <= |keys| && Valid()
        invariant FlowControl.DropHoldState(old(Queue()), hold) == DropKeys(Queue(), doomed, keys[i..])
      {
        assert keys[i..][0] == keys[i] && keys[i..][1..] == keys[i + 1..] && keys[i] in keys;
        if keys[i].hold == hold { TakeSlot(keys[i]); }
        i := i + 1;
      }
    }

    /** A cumulative acknowledgement; refused outside what was sent. */
    method OnAck(n: nat) returns (violation: bool)
      requires Valid()
      modifies this
      ensures violation <==> !AckAllowed(old(Queue()), n)
      ensures violation ==> View() == old(View())
      ensures !violation ==> View() == Provider.OnAck(cfg, old(View()), n)
      ensures Valid()
    {
      if peerAcks != Some(true) || n < acked || n > sent { return true; }
      Acknowledged(n);
      hide Accounted, Acknowledge;
      Flush();
      return false;
    }

    /** In place, `Acknowledge`. */
    method Acknowledged(n: nat)
      requires Valid() && AckAllowed(Queue(), n)
      modifies this`unacked, this`unackedBytes, this`acked
      ensures Valid() && View() == old(View()).(out := Acknowledge(old(Queue()), n))
    {
      AcknowledgeKeeps(cfg, Queue(), n);
      AckFits(cfg, Queue(), n);
      hide Accounted;
      Release(n - acked);
      acked := n;
    }

    /** The first `k` sizes leave the window. */
    method Release(k: nat)
      requires k <= |unacked|
      modifies this`unacked, this`unackedBytes
      ensures unacked == old(unacked)[k..] && unackedBytes == old(unackedBytes) - Sum(old(unacked)[..k])
    {
      var released, i := unacked[..k], 0;
      unacked := unacked[k..];
      while i < k
        invariant 0 <= i <= k && unackedBytes == old(unackedBytes) - Sum(released[..i])
        invariant unacked == old(unacked)[k..]
      {
        assert released[..i + 1] == released[..i] + [released[i]];
        SumAppend(released[..i], released[i]);
        unackedBytes := unackedBytes - released[i];
        i := i + 1;
      }
      assert released[..i] == released;
    }

    /** Empties the queue from the front until it is empty or the window is closed. */
    method Flush()
      requires Valid()
      modifies this
      ensures View() == Provider.Flush(cfg, old(View())) && Valid()
    {
      while order != []
        invariant Valid() && Provider.Flush(cfg, old(View())) == Provider.Flush(cfg, View())
        decreases |order|
      {
        if Full() { return; }
        OldestSlot(cfg, Queue());
        FlushFirstOrdered(cfg, View());
        FlushOldest();
      }
    }

    method FlushOldest()
      requires Valid() && order != [] && order[0] in slots && (order[0].StreamKey? ==> slots[order[0]].StreamSlot?)
      modifies this
      ensures View() == FlushFirst(cfg, old(View())) && Valid()
    {
      hide Accounted, Ordered;
      var key, slot := order[0], slots[order[0]];
      TakeSlot(key);
      match key {
        case UnitKey(hold) => SendUnit(hold);
        case StreamKey(hold, m) =>
          if slot.lazy {
            if !slot.relayed { Resend(hold, m); }
          } else {
            SlotFramesSent(key, slot);
            if slot.base.Some? { Send(FullFrame(hold, m, slot.base.value)); }
            if slot.ops != [] { Send(OpsFrame(hold, m, slot.ops)); }
          }
      }
    }

    /** A slot leaves with the bytes it held. */
    method TakeSlot(key: Key)
      requires Valid()
      modifies this`slots, this`order, this`pendingBytes
      ensures Queue() == TakeOut(old(Queue()), key) && Valid()
    {
      TakeOutKeeps(cfg, Queue(), key);
      if key in slots {
        if slots[key].StreamSlot? { pendingBytes := pendingBytes - slots[key].size; }
        DeleteSlot(key);
      }
    }

    lemma SlotFramesSent(key: Key, slot: Slot)
      requires key.StreamKey? && slot.StreamSlot?
      ensures var o1 := if slot.base.Some? then FlowControl.Send(cfg, Queue(), FullFrame(key.hold, key.m, slot.base.value)) else Queue();
              SendAll(cfg, Queue(), SlotFrames(key, slot))
              == if slot.ops != [] then FlowControl.Send(cfg, o1, OpsFrame(key.hold, key.m, slot.ops)) else o1
    {
      var a := if slot.base.Some? then [FullFrame(key.hold, key.m, slot.base.value)] else [];
      var b := if slot.ops != [] then [OpsFrame(key.hold, key.m, slot.ops)] else [];
      SendAllConcat(cfg, Queue(), a, b);
    }

    /** The shape frame lists the members that have no stream yet; `Attach` then gives each of them one. */
    method SendUnit(hold: Hold)
      requires Valid()
      modifies this
      ensures View() == Provider.SendUnit(cfg, old(View()), hold) && Valid()
    {
      DeleteUnit(hold);
      if hold !in served || served[hold].shape.None? { return; }
      var listed := Listed(served[hold]);
      ghost var q := Queue();
      assert Accounted(cfg, q);
      var snaps := Attach(hold, listed);
      assert Valid() by { assert Queue() == q; }
      SnapshotsSame(old(View()), View().(out := q, locals := old(served)), hold, listed);
      SendUnitFrames(ShapeFrame(hold, served[hold].shape.value, listed), snaps);
    }

    method SendUnitFrames(shape: Frame, snaps: seq<Frame>)
      requires Valid()
      modifies this
      ensures View() == old(View()).(out := SendAll(cfg, old(Queue()), [shape] + snaps)) && Valid()
    {
      SendAllConcat(cfg, Queue(), [shape], snaps);
      Send(shape);
      SendEach(snaps);
    }

    /** A snapshot and a fresh stream for each listed member. */
    method Attach(hold: Hold, listed: seq<Name>) returns (snaps: seq<Frame>)
      requires hold in served
      modifies this`served
      ensures snaps == Snapshots(old(View()), hold, listed) && Queue() == old(Queue())
      ensures served == old(served)[hold := old(served)[hold].(feeds :=
                          old(served)[hold].feeds + (map n | n in listed :: FRESH_ENCODER), unitSent := true)]
    {
      ghost var c := View();
      var feeds, i := served[hold].feeds, 0;
      snaps := [];
      while i < |listed|
        invariant 0 <= i <= |listed| && View() == c
        invariant snaps == Snapshots(c, hold, listed[..i])
        invariant feeds == c.locals[hold].feeds + (map n | n in listed[..i] :: FRESH_ENCODER)
      {
        assert listed[..i + 1] == listed[..i] + [listed[i]];
        SnapshotsAppend(c, hold, listed[..i], listed[i]);
        snaps := snaps + [FullFrame(hold, listed[i], ValueOf(View(), hold, listed[i]))];
        feeds := feeds[listed[i] := FRESH_ENCODER];
        i := i + 1;
      }
      assert listed[..|listed|] == listed;
      served := served[hold := served[hold].(feeds := feeds, unitSent := true)];
    }

    method DeleteUnit(hold: Hold)
      requires Valid()
      modifies this`slots, this`order
      ensures Queue() == Remove(old(Queue()), UnitKey(hold)) && Valid()
    {
      if UnitKey(hold) in slots {
        RemoveKeeps(Queue(), UnitKey(hold));
        DeleteSlot(UnitKey(hold));
      }
    }

    method SendEach(frames: seq<Frame>)
      requires Valid()
      modifies this
      ensures View() == old(View()).(out := SendAll(cfg, old(Queue()), frames)) && Valid()
    {
      var i := 0;
      while i < |frames|
        invariant 0 <= i <= |frames| && Valid()
        invariant SendAll(cfg, old(Queue()), frames) == SendAll(cfg, Queue(), frames[i..])
        invariant served == old(served) && values == old(values)
      {
        assert frames[i..][0] == frames[i] && frames[i..][1..] == frames[i + 1..];
        Send(frames[i]);
        i := i + 1;
      }
    }

    /** A fed member gets a new stream that starts with a reset; a member that is not fed is left alone. */
    method Resend(hold: Hold, m: Name)
      requires Valid()
      modifies this
      ensures View() == Provider.Resend(cfg, old(View()), hold, m) && Valid()
    {
      if hold !in served || m !in served[hold].feeds { return; }
      var l := served[hold];
      served := served[hold := l.(feeds := l.feeds[m := FRESH_ENCODER])];
      Send(FullFrame(hold, m, ValueOf(View(), hold, m)));
    }

    /** The consumer lost track of `m`: its slot turns lazy, and goes at once if the window is open. */
    method OnResync(hold: Hold, m: Name)
      requires Valid()
      modifies this
      ensures View() == Provider.OnResync(cfg, old(View()), hold, m) && Valid()
    {
      if hold !in served || m !in served[hold].feeds { return; }
      var key := StreamKey(hold, m);
      MakeLazy(key);
      hide Accounted, Ordered, Lazied;
      Flush();
    }

    /** In place, `Lazied`. */
    method MakeLazy(key: Key)
      requires Valid() && key.StreamKey?
      modifies this`slots, this`order, this`pendingBytes
      ensures Valid() && Queue() == Lazied(old(Queue()), key)
    {
      LaziedKeeps(cfg, Queue(), key);
      hide Accounted, Ordered;
      if key !in slots {
        SetSlot(key, StreamSlot(None, [], 0, true, false));
      } else {
        var slot := slots[key];
        pendingBytes := pendingBytes - slot.size;
        SetSlot(key, StreamSlot(None, [], 0, true, slot.relayed));
      }
    }

    /** Makes sure that a unit slot of the hold exists, and flushes. */
    method QueueUnit(hold: Hold)
      requires Valid()
      modifies this
      ensures View() == Provider.QueueUnit(cfg, old(View()), hold) && Valid()
    {
      PutKeeps(Queue(), UnitKey(hold), UnitSlot);
      if UnitKey(hold) !in slots { SetSlot(UnitKey(hold), UnitSlot); }
      Flush();
    }

    /** Brings streams and consumer in line with the current shape. */
    method UnitChanged(hold: Hold)
      requires Valid()
      modifies this
      ensures View() == Provider.Unit(cfg, old(View()), hold) && Valid()
    {
      if hold !in served || served[hold].shape.None? { return; }
      var l := served[hold];
      var gone := l.feeds.Keys - Fed(l);
      EndFeeds(hold, gone);
      if served[hold].feeds == map[] && !(l.again && !l.unitSent) {
        SendUnit(hold);
      } else {
        QueueUnit(hold);
      }
    }

    /** Ends the streams of `left`, each with its slot. */
    method EndFeeds(hold: Hold, gone: set<Name>)
      requires Valid() && hold in served
      modifies this
      ensures View() == Provider.EndFeeds(old(View()), hold, gone) && Valid()
    {
      ghost var o := Queue();
      ghost var doomed := set n | n in gone :: StreamKey(hold, n);
      DropKeysIsTakeOut(cfg, o, doomed);
      DropFeeds(hold, gone);
      TookOutUnique(cfg, o, Queue(), DropKeys(o, doomed, o.order), doomed);
    }

    method DropFeeds(hold: Hold, gone: set<Name>)
      requires Valid() && hold in served
      modifies this
      ensures TookOut(cfg, old(Queue()), Queue(), set n | n in gone :: StreamKey(hold, n))
      ensures served == old(served)[hold := old(served)[hold].(feeds := old(served)[hold].feeds - gone)]
      ensures values == old(values)
    {
      hide Ordered, TookOut;
      var feeds, left := served[hold].feeds, gone;
      ghost var done: set<Key> := {};
      TookOutNone(cfg, Queue());
      MinusNone(feeds, gone);
      while left != {}
        invariant left <= gone && done == set n | n in gone - left :: StreamKey(hold, n)
        invariant TookOut(cfg, old(Queue()), Queue(), done)
        invariant feeds == old(served)[hold].feeds - (gone - left)
        invariant served == old(served) && values == old(values)
        decreases |left|
      {
        var n :| n in left;
        TookOutOne(cfg, old(Queue()), Queue(), done, StreamKey(hold, n));
        assert Valid();
        MinusOne(old(served)[hold].feeds, gone, left, n);
        feeds := feeds - {n};
        DropStream(hold, n);
        left := left - {n};
        done := done + {StreamKey(hold, n)};
      }
      served := served[hold := served[hold].(feeds := feeds)];
      assert gone - left == gone;
    }

    method DropStream(hold: Hold, m: Name)
      requires Valid()
      modifies this`slots, this`order, this`pendingBytes
      ensures Queue() == TakeOut(old(Queue()), StreamKey(hold, m))
    {
      DropState(hold, m);
    }

    /** A `sub` or an `unsub` from the other end. */
    method OnWantState(hold: Hold, wanted: bool)
      requires Valid()
      modifies this
      ensures View() == Provider.OnWantState(cfg, old(View()), hold, wanted) && Valid()
    {
      if hold !in served || served[hold].wantsState == wanted { return; }
      var l := served[hold];
      served := served[hold := l.(wantsState := wanted)];
      if wanted {
        UnitChanged(hold);
        return;
      }
      served := served[hold := served[hold].(feeds := map[])];
      DropHoldState(hold);
    }

    /** A served member changed by `ops`: its stream gets them encoded. */
    method FeedOps(hold: Hold, m: Name, ops: seq<Op>) returns (resyncs: seq<Key>)
      requires Valid()
      modifies this
      ensures var e := Changed(cfg, old(View()), hold, m, ops); View() == e.conn && resyncs == e.resyncs
      ensures Valid()
    {
      resyncs := [];
      values := values[(hold, m) := ApplyAll(ValueOf(View(), hold, m), ops)];
      if hold !in served || m !in served[hold].feeds { return; }
      var l := served[hold];
      var sent := Encode(l.feeds[m], ops);
      served := served[hold := l.(feeds := l.feeds[m := sent.encoder])];
      resyncs := SendState(OpsFrame(hold, m, sent.wire), false);
    }

    /** A served member got a new value: its stream starts anew. */
    method FeedReset(hold: Hold, m: Name, value: Value) returns (resyncs: seq<Key>)
      requires Valid()
      modifies this
      ensures var e := Replaced(cfg, old(View()), hold, m, value); View() == e.conn && resyncs == e.resyncs
      ensures Valid()
    {
      resyncs := [];
      values := values[(hold, m) := value];
      if hold !in served || m !in served[hold].feeds { return; }
      var l := served[hold];
      served := served[hold := l.(feeds := l.feeds[m := FRESH_ENCODER])];
      resyncs := SendState(FullFrame(hold, m, value), false);
    }

    method OnHello(acks: bool)
      modifies this
      ensures View() == old(View()).(out := FlowControl.Hello(old(Queue()), acks))
      ensures old(Valid()) ==> Valid()
    {
      if peerAcks.None? {
        peerAcks := Some(acks);
        if !acks { unacked, unackedBytes := [], 0; }
      }
    }
  }

  lemma {:induction false} SendAllConcat(cfg: Config, o: Out, a: seq<Frame>, b: seq<Frame>)
    ensures SendAll(cfg, o, a + b) == SendAll(cfg, SendAll(cfg, o, a), b)
    decreases |a|
  {
    if a == [] {
      assert a + b == b;
    } else {
      assert (a + b)[0] == a[0] && (a + b)[1..] == a[1..] + b;
      SendAllConcat(cfg, FlowControl.Send(cfg, o, a[0]), a[1..], b);
    }
  }

  lemma {:induction false} SnapshotsAppend(c: Conn, hold: Hold, names: seq<Name>, n: Name)
    ensures Snapshots(c, hold, names + [n]) == Snapshots(c, hold, names) + [FullFrame(hold, n, ValueOf(c, hold, n))]
    decreases |names|
  {
    if names == [] {
      assert ([] + [n])[1..] == [];
    } else {
      assert (names + [n])[0] == names[0] && (names + [n])[1..] == names[1..] + [n];
      SnapshotsAppend(c, hold, names[1..], n);
    }
  }

  lemma {:induction false} SnapshotsSame(c: Conn, d: Conn, hold: Hold, names: seq<Name>)
    requires c.values == d.values
    ensures Snapshots(c, hold, names) == Snapshots(d, hold, names)
    decreases |names|
  {
    if names != [] { SnapshotsSame(c, d, hold, names[1..]); }
  }
}
