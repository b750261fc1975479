/**
 What one end of a link keeps to bound the state it pushes: the sizes of unacknowledged frames against a
 window, and the state that waits in slots, in creation order, below a cap.
 */
module FlowControl {
  import opened DeltaCodec
  import opened Wire
  import opened Wrappers

  datatype Key = UnitKey(hold: Hold) | StreamKey(hold: Hold, m: Name)

  /**
   What waits for the window under one key.  A lazy stream slot and a unit slot take no bytes: what they stand for is
   built when their turn comes.  `relayed` marks streams whose value is not here, so that they cannot turn lazy.
   */
  datatype Slot =
    | UnitSlot
    | StreamSlot(base: Option<Value>, ops: seq<WireOp>, size: nat, lazy: bool, relayed: bool)

  datatype Config = Config(window: nat, cap: nat, frameSize: Frame -> nat, opsSize: seq<WireOp> -> nat)

  /** `wire` is what the peer has not taken off the link yet. */
  datatype Out = Out(
    acks: Option<bool>,
    sent: nat,
    acked: nat,
    unacked: seq<nat>,
    unackedBytes: int,
    slots: map<Key, Slot>,
    order: seq<Key>,
    pendingBytes: int,
    wire: seq<Frame>)

  function SizeOf(slot: Slot): nat {
    if slot.StreamSlot? then slot.size else 0
  }

  predicate WindowFull(cfg: Config, o: Out) {
    o.acks == Some(true) && o.unackedBytes >= cfg.window
  }

  function Without(order: seq<Key>, key: Key): seq<Key>
    decreases |order|
  {
    if order == [] then []
    else if order[0] == key then order[1..]
    else [order[0]] + Without(order[1..], key)
  }

  function Put(o: Out, key: Key, slot: Slot): Out {
    o.(slots := o.slots[key := slot], order := if key in o.slots then o.order else o.order + [key])
  }

  function Remove(o: Out, key: Key): Out {
    if key in o.slots then o.(slots := o.slots - {key}, order := Without(o.order, key)) else o
  }

  /** A slot leaves with the bytes it held. */
  function TakeOut(o: Out, key: Key): Out {
    if key in o.slots then Remove(o, key).(pendingBytes := o.pendingBytes - SizeOf(o.slots[key])) else o
  }

  function Send(cfg: Config, o: Out, f: Frame): Out {
    if o.acks == Some(false) then o.(wire := o.wire + [f])
    else
      var size := cfg.frameSize(f);
      o.(wire := o.wire + [f], sent := o.sent + 1, unacked := o.unacked + [size],
         unackedBytes := o.unackedBytes + size)
  }

  function SendAll(cfg: Config, o: Out, frames: seq<Frame>): Out
    decreases |frames|
  {
    if frames == [] then o else SendAll(cfg, Send(cfg, o, frames[0]), frames[1..])
  }

  const EMPTY_SLOT := StreamSlot(None, [], 0, false, false)

  /** The result of an operation, with the relayed streams for which a reset must be asked. */
  datatype Effect = Effect(out: Out, resyncs: seq<Key>)

  /** The slot under `k` gives its bytes back. */
  function Drop(o: Out, key: Key): Effect
    requires key in o.slots && o.slots[key].StreamSlot?
  {
    var slot := o.slots[key];
    var less := o.(pendingBytes := o.pendingBytes - slot.size);
    if slot.relayed then Effect(TakeOut(o, key), [key])
    else Effect(Put(less, key, StreamSlot(None, [], 0, true, false)), [])
  }

  /** Walks `keys` from the oldest on and stops as soon as there is room; `current` is passed over and pays last. */
  function MakeRoom(cfg: Config, o: Out, size: nat, current: Key, keys: seq<Key>): Effect
    requires current in o.slots && o.slots[current].StreamSlot?
    decreases |keys|
  {
    if o.pendingBytes + size <= cfg.cap then Effect(o, [])
    else if keys == [] then Drop(o, current)
    else
      var k := keys[0];
      if k != current && k in o.slots && o.slots[k].StreamSlot? && o.slots[k].size > 0 then
        var dropped := Drop(o, k);
        var rest := MakeRoom(cfg, dropped.out, size, current, keys[1..]);
        rest.(resyncs := dropped.resyncs + rest.resyncs)
      else MakeRoom(cfg, o, size, current, keys[1..])
  }

  /** Ops join the slot of their stream, if they fit. */
  function Append(cfg: Config, o: Out, key: Key, ops: seq<WireOp>): Effect
    requires key in o.slots && o.slots[key].StreamSlot?
  {
    if o.slots[key].lazy then Effect(o, [])
    else
      var size := cfg.opsSize(ops);
      var room := MakeRoom(cfg, o, size, key, o.order);
      var out := room.out;
      if key !in out.slots || out.slots[key].UnitSlot? || out.slots[key].lazy then room
      else
        var slot := out.slots[key];
        room.(out := Put(out, key, slot.(ops := slot.ops + ops, size := slot.size + size))
                     .(pendingBytes := out.pendingBytes + size))
  }

  /** A snapshot or reset replaces what waits for its stream. */
  function Rebase(o: Out, key: Key, value: Value): Out
    requires key in o.slots && o.slots[key].StreamSlot?
  {
    var slot := o.slots[key];
    Put(o, key, slot.(base := Some(value), ops := [], size := 0, lazy := false))
      .(pendingBytes := o.pendingBytes - slot.size)
  }

  function SendState(cfg: Config, o: Out, f: Frame, relayed: bool): Effect
    requires f.FullFrame? || f.OpsFrame?
  {
    var key := StreamKey(f.hold, f.m);
    if key !in o.slots && !WindowFull(cfg, o) then Effect(Send(cfg, o, f), [])
    else if key in o.slots && o.slots[key].UnitSlot? then Effect(o, [])
    else
      var o1 := if key in o.slots then o else Put(o, key, EMPTY_SLOT.(relayed := relayed));
      if f.FullFrame? then Effect(Rebase(o1, key, f.value), []) else Append(cfg, o1, key, f.ops)
  }

  /** The frames a waiting stream turns into. */
  function SlotFrames(key: Key, slot: Slot): seq<Frame>
    requires key.StreamKey? && slot.StreamSlot?
  {
    (if slot.base.Some? then [FullFrame(key.hold, key.m, slot.base.value)] else [])
    + (if slot.ops != [] then [OpsFrame(key.hold, key.m, slot.ops)] else [])
  }

  /** Without the slot under `k`. */
  function DropState(o: Out, key: Key): Out {
    if key in o.slots && o.slots[key].StreamSlot? then TakeOut(o, key) else o
  }

  /** Without the slots of `keys` that are in `doomed`. */
  function DropKeys(o: Out, doomed: set<Key>, keys: seq<Key>): Out
    decreases |keys|
  {
    if keys == [] then o
    else
      var k := keys[0];
      DropKeys(if k in doomed then TakeOut(o, k) else o, doomed, keys[1..])
  }

  function KeysOfHold(o: Out, hold: Hold): set<Key> {
    set k | k in o.order && k.hold == hold
  }

  function DropHoldState(o: Out, hold: Hold): Out {
    DropKeys(o, KeysOfHold(o, hold), o.order)
  }

  predicate AckAllowed(o: Out, n: int) {
    o.acks == Some(true) && o.acked <= n <= o.sent
  }

  function Sum(sizes: seq<nat>): nat
    decreases |sizes|
  {
    if sizes == [] then 0 else sizes[0] + Sum(sizes[1..])
  }

  /** A cumulative acknowledgement: the first `n - acked` sizes leave the window. */
  function Acknowledge(o: Out, n: nat): Out
    requires o.acked <= n && n - o.acked <= |o.unacked|
  {
    o.(unackedBytes := o.unackedBytes - Sum(o.unacked[..n - o.acked]), unacked := o.unacked[n - o.acked..],
       acked := n)
  }

  /** The peer's hello says whether it acknowledges frames. */
  function Hello(o: Out, acks: bool): Out {
    if o.acks.Some? then o
    else if acks then o.(acks := Some(true))
    else o.(acks := Some(false), unacked := [], unackedBytes := 0)
  }

  // ---------------------------------------------------------------- accounting

  ghost predicate NoDup(order: seq<Key>) {
    forall i, j :: 0 <= i < j < |order| ==> order[i] != order[j]
  }

  /** The slots in creation order are exactly the slots. */
  ghost predicate Ordered(o: Out) {
    && NoDup(o.order)
    && (forall k :: k in o.order <==> k in o.slots)
    && (forall k :: k in o.slots ==> (k.UnitKey? <==> o.slots[k].UnitSlot?))
  }

  function Waiting(order: seq<Key>, slots: map<Key, Slot>): nat
    requires forall k :: k in order ==> k in slots
    decreases |order|
  {
    if order == [] then 0 else SizeOf(slots[order[0]]) + Waiting(order[1..], slots)
  }

  /** Every number kept for flow control is what it stands for. */
  ghost predicate Accounted(cfg: Config, o: Out) {
    && Ordered(o)
    && (o.acks != Some(false) ==> o.acked <= o.sent && |o.unacked| == o.sent - o.acked)
    && o.unackedBytes == Sum(o.unacked)
    && o.pendingBytes == Waiting(o.order, o.slots)
    && o.pendingBytes <= cfg.cap
  }

  lemma {:induction false} SumConcat(a: seq<nat>, b: seq<nat>)
    ensures Sum(a + b) == Sum(a) + Sum(b)
    decreases |a|
  {
    if a == [] {
      assert a + b == b;
    } else {
      assert (a + b)[0] == a[0] && (a + b)[1..] == a[1..] + b;
      SumConcat(a[1..], b);
    }
  }

  lemma TailOf(order: seq<Key>)
    requires NoDup(order) && order != []
    ensures NoDup(order[1..]) && order[0] !in order[1..]
    ensures forall k :: k in order <==> k == order[0] || k in order[1..]
  {
    var tail := order[1..];
    forall i, j | 0 <= i < j < |tail| ensures tail[i] != tail[j] { assert order[i + 1] != order[j + 1]; }
    forall j | 0 <= j < |tail| ensures tail[j] != order[0] { assert order[j + 1] == tail[j]; }
  }

  lemma {:induction false} WithoutIs(order: seq<Key>, key: Key)
    requires NoDup(order)
    ensures NoDup(Without(order, key))
    ensures forall k :: k in Without(order, key) <==> k in order && k != key
    ensures key in order ==> |Without(order, key)| == |order| - 1
    decreases |order|
  {
    if order != [] {
      var tail := order[1..];
      TailOf(order);
      WithoutIs(tail, key);
    }
  }

  lemma {:induction false} WaitingFrame(order: seq<Key>, a: map<Key, Slot>, b: map<Key, Slot>)
    requires forall k :: k in order ==> k in a && k in b && SizeOf(a[k]) == SizeOf(b[k])
    ensures Waiting(order, a) == Waiting(order, b)
    decreases |order|
  {
    if order != [] {
      assert order[0] in order;
      WaitingFrame(order[1..], a, b);
    }
  }

  lemma {:induction false} WaitingUpdate(order: seq<Key>, slots: map<Key, Slot>, key: Key, slot: Slot)
    requires NoDup(order) && key in order && forall k :: k in order ==> k in slots
    ensures Waiting(order, slots[key := slot]) == Waiting(order, slots) - SizeOf(slots[key]) + SizeOf(slot)
    decreases |order|
  {
    var tail := order[1..];
    TailOf(order);
    if order[0] == key {
      WaitingFrame(tail, slots, slots[key := slot]);
    } else {
      WaitingUpdate(tail, slots, key, slot);
    }
  }

  lemma {:induction false} WaitingAppend(order: seq<Key>, slots: map<Key, Slot>, key: Key, slot: Slot)
    requires key !in order && forall k :: k in order ==> k in slots
    ensures Waiting(order + [key], slots[key := slot]) == Waiting(order, slots) + SizeOf(slot)
    decreases |order|
  {
    var next := slots[key := slot];
    if order == [] {
      assert (order + [key])[1..] == [];
    } else {
      assert order[0] in order;
      assert (order + [key])[0] == order[0] && (order + [key])[1..] == order[1..] + [key];
      WaitingAppend(order[1..], slots, key, slot);
    }
  }

  lemma {:induction false} WaitingWithout(order: seq<Key>, slots: map<Key, Slot>, key: Key)
    requires NoDup(order) && key in order && forall k :: k in order ==> k in slots
    ensures forall k :: k in Without(order, key) ==> k in slots - {key}
    ensures Waiting(Without(order, key), slots - {key}) == Waiting(order, slots) - SizeOf(slots[key])
    decreases |order|
  {
    WithoutIs(order, key);
    var tail := order[1..];
    TailOf(order);
    if order[0] == key {
      WaitingFrame(tail, slots, slots - {key});
    } else {
      WaitingWithout(tail, slots, key);
      var rest := Without(tail, key);
      assert Without(order, key)[0] == order[0] && Without(order, key)[1..] == rest;
    }
  }

  // -------- each operation keeps the accounts

  lemma SendKeeps(cfg: Config, o: Out, f: Frame)
    requires Accounted(cfg, o)
    ensures Accounted(cfg, Send(cfg, o, f))
  {
    SumConcat(o.unacked, [cfg.frameSize(f)]);
  }

  lemma PutKeeps(o: Out, key: Key, slot: Slot)
    requires Ordered(o) && (key.UnitKey? <==> slot.UnitSlot?)
    ensures Ordered(Put(o, key, slot))
    ensures Waiting(Put(o, key, slot).order, Put(o, key, slot).slots)
         == Waiting(o.order, o.slots) - (if key in o.slots then SizeOf(o.slots[key]) else 0) + SizeOf(slot)
  {
    var next := Put(o, key, slot);
    if key in o.slots {
      WaitingUpdate(o.order, o.slots, key, slot);
    } else {
      WaitingAppend(o.order, o.slots, key, slot);
      forall k ensures k in next.order <==> k in next.slots {
        assert k in next.order <==> k in o.order || k == key;
      }
    }
  }

  lemma RemoveKeeps(o: Out, key: Key)
    requires Ordered(o) && key in o.slots
    ensures Ordered(Remove(o, key))
    ensures Waiting(Remove(o, key).order, Remove(o, key).slots) == Waiting(o.order, o.slots) - SizeOf(o.slots[key])
    ensures |Remove(o, key).order| == |o.order| - 1
  {
    WithoutIs(o.order, key);
    WaitingWithout(o.order, o.slots, key);
  }

  lemma TakeOutKeeps(cfg: Config, o: Out, key: Key)
    requires Ordered(o)
    ensures Ordered(TakeOut(o, key))
    ensures key in o.slots ==> |TakeOut(o, key).order| == |o.order| - 1
    ensures Accounted(cfg, o) ==> Accounted(cfg, TakeOut(o, key))
  {
    if key in o.slots {
      RemoveKeeps(o, key);
    }
  }

  lemma DropKeeps(cfg: Config, o: Out, key: Key)
    requires Accounted(cfg, o) && key in o.slots && o.slots[key].StreamSlot?
    ensures Accounted(cfg, Drop(o, key).out)
    ensures Drop(o, key).out.pendingBytes == o.pendingBytes - o.slots[key].size
  {
    if o.slots[key].relayed {
      TakeOutKeeps(cfg, o, key);
    } else {
      var less := o.(pendingBytes := o.pendingBytes - o.slots[key].size);
      PutKeeps(less, key, StreamSlot(None, [], 0, true, false));
    }
  }

  /** After making room, either `size` more bytes fit or `current` was dropped. */
  lemma {:induction false} MakeRoomKeeps(cfg: Config, o: Out, size: nat, current: Key, keys: seq<Key>)
    requires Accounted(cfg, o) && current in o.slots && o.slots[current].StreamSlot?
    ensures var room := MakeRoom(cfg, o, size, current, keys);
            && Accounted(cfg, room.out)
            && (room.out.pendingBytes + size <= cfg.cap
                || current !in room.out.slots
                || (room.out.slots[current].StreamSlot? && room.out.slots[current].lazy))
    decreases |keys|
  {
    if o.pendingBytes + size <= cfg.cap {
    } else if keys == [] {
      DropKeeps(cfg, o, current);
    } else {
      var k := keys[0];
      if k != current && k in o.slots && o.slots[k].StreamSlot? && o.slots[k].size > 0 {
        DropKeeps(cfg, o, k);
        MakeRoomKeeps(cfg, Drop(o, k).out, size, current, keys[1..]);
      } else {
        MakeRoomKeeps(cfg, o, size, current, keys[1..]);
      }
    }
  }

  lemma AppendKeeps(cfg: Config, o: Out, key: Key, ops: seq<WireOp>)
    requires Accounted(cfg, o) && key in o.slots && o.slots[key].StreamSlot?
    ensures Accounted(cfg, Append(cfg, o, key, ops).out)
  {
    hide MakeRoom, Waiting;
    if !o.slots[key].lazy {
      var size := cfg.opsSize(ops);
      MakeRoomKeeps(cfg, o, size, key, o.order);
      var out := MakeRoom(cfg, o, size, key, o.order).out;
      if key in out.slots && out.slots[key].StreamSlot? && !out.slots[key].lazy {
        var slot := out.slots[key];
        PutKeeps(out, key, slot.(ops := slot.ops + ops, size := slot.size + size));
      }
    }
  }

  lemma RebaseKeeps(cfg: Config, o: Out, key: Key, value: Value)
    requires Accounted(cfg, o) && key in o.slots && o.slots[key].StreamSlot?
    ensures Accounted(cfg, Rebase(o, key, value))
  {
    PutKeeps(o, key, o.slots[key].(base := Some(value), ops := [], size := 0, lazy := false));
  }

  lemma SendStateKeeps(cfg: Config, o: Out, f: Frame, relayed: bool)
    requires Accounted(cfg, o) && (f.FullFrame? || f.OpsFrame?)
    ensures Accounted(cfg, SendState(cfg, o, f, relayed).out)
  {
    var key := StreamKey(f.hold, f.m);
    if key !in o.slots && !WindowFull(cfg, o) {
      SendKeeps(cfg, o, f);
    } else {
      var o1 := if key in o.slots then o else Put(o, key, EMPTY_SLOT.(relayed := relayed));
      if key !in o.slots {
        PutKeeps(o, key, EMPTY_SLOT.(relayed := relayed));
      }
      if f.FullFrame? {
        RebaseKeeps(cfg, o1, key, f.value);
      } else {
        AppendKeeps(cfg, o1, key, f.ops);
      }
    }
  }

  lemma {:induction false} DropKeysKeeps(cfg: Config, o: Out, doomed: set<Key>, keys: seq<Key>)
    requires Ordered(o)
    ensures Ordered(DropKeys(o, doomed, keys))
    ensures Accounted(cfg, o) ==> Accounted(cfg, DropKeys(o, doomed, keys))
    decreases |keys|
  {
    if keys != [] {
      TakeOutKeeps(cfg, o, keys[0]);
      DropKeysKeeps(cfg, if keys[0] in doomed then TakeOut(o, keys[0]) else o, doomed, keys[1..]);
    }
  }

  /** What was to go is gone, and nothing else changed. */
  lemma {:induction false} DropKeysIs(o: Out, doomed: set<Key>, keys: seq<Key>)
    ensures var end := DropKeys(o, doomed, keys);
            && end.slots == o.slots - (set k | k in keys && k in doomed)
            && end.wire == o.wire && end.acks == o.acks && end.unackedBytes == o.unackedBytes
    decreases |keys|
  {
    if keys != [] {
      var k := keys[0];
      var all, rest := (set k | k in keys && k in doomed), (set k | k in keys[1..] && k in doomed);
      assert all == rest + (if k in doomed then {k} else {});
      var o1 := if k in doomed then TakeOut(o, k) else o;
      DropKeysIs(o1, doomed, keys[1..]);
      assert o1.slots - rest == o.slots - all;
    }
  }

  /** What making room does to one key: nothing, a lazy reset, or (relayed) the slot goes and a reset is asked for. */
  ghost predicate KeptOrDropped(before: Out, after: Effect, k: Key) {
    if k !in before.slots then k !in after.out.slots
    else
      || (k in after.out.slots && after.out.slots[k] == before.slots[k])
      || (before.slots[k].StreamSlot? && !before.slots[k].relayed
          && k in after.out.slots && after.out.slots[k] == StreamSlot(None, [], 0, true, false))
      || (before.slots[k].StreamSlot? && before.slots[k].relayed && k !in after.out.slots && k in after.resyncs)
  }

  lemma {:induction false} MakeRoomIs(cfg: Config, o: Out, size: nat, current: Key, keys: seq<Key>, k: Key)
    requires current in o.slots && o.slots[current].StreamSlot?
    ensures var room := MakeRoom(cfg, o, size, current, keys);
            && KeptOrDropped(o, room, k)
            && room.out.wire == o.wire && room.out.acks == o.acks && room.out.unackedBytes == o.unackedBytes
            && (forall r :: r in room.resyncs ==> r in o.slots && o.slots[r].StreamSlot? && o.slots[r].relayed)
            && (k in room.resyncs ==> k !in room.out.slots)
    decreases |keys|
  {
    if o.pendingBytes + size <= cfg.cap || keys == [] {
    } else {
      var x := keys[0];
      if x != current && x in o.slots && o.slots[x].StreamSlot? && o.slots[x].size > 0 {
        MakeRoomIs(cfg, Drop(o, x).out, size, current, keys[1..], k);
      } else {
        MakeRoomIs(cfg, o, size, current, keys[1..], k);
      }
    }
  }

  lemma AcknowledgeKeeps(cfg: Config, o: Out, n: nat)
    requires Accounted(cfg, o) && AckAllowed(o, n)
    ensures Accounted(cfg, Acknowledge(o, n))
  {
    var k := n - o.acked;
    SumConcat(o.unacked[..k], o.unacked[k..]);
    assert o.unacked[..k] + o.unacked[k..] == o.unacked;
  }
}
