/**
 What every operation of a provider keeps besides convergence: the accounts of its link, the count of
 frames sent against those taken, and that the first frame about a hold is the shape of its first unit.
 */
module ProviderBooks {
  import opened DeltaCodec
  import opened Wire
  import opened Wrappers
  import opened FlowControl
  import opened Provider
  import opened Convergence
  import opened ConvergenceSteps

  /** `received` frames were taken off the wire; what was sent is that and what is still on it. */
  ghost predicate Books(cfg: Config, o: Out, received: nat) {
    && Accounted(cfg, o)
    && (o.acks != Some(false) ==> o.sent == received + |o.wire|)
  }

  predicate IsShape(f: Frame, hold: Hold) {
    f.ShapeFrame? && f.hold == hold
  }

  predicate IsState(f: Frame, hold: Hold) {
    (f.FullFrame? || f.OpsFrame?) && f.hold == hold
  }

  /** Before the first state frame of the hold there is a shape. */
  predicate Headed(frames: seq<Frame>, hold: Hold)
    decreases |frames|
  {
    frames == [] || IsShape(frames[0], hold) || (!IsState(frames[0], hold) && Headed(frames[1..], hold))
  }

  predicate HasShape(frames: seq<Frame>, hold: Hold) {
    exists i :: 0 <= i < |frames| && IsShape(frames[i], hold)
  }

  /** Nothing about the hold was taken yet: its unit, if sent, is still on the wire and comes first. */
  ghost predicate UnitFirst(c: Conn, hold: Hold) {
    && Headed(c.out.wire, hold)
    && (hold in c.locals && c.locals[hold].unitSent ==> HasShape(c.out.wire, hold))
  }

  ghost predicate Orderly(cfg: Config, c: Conn, received: nat, hold: Hold, shaped: bool) {
    Books(cfg, c.out, received) && (shaped || UnitFirst(c, hold))
  }

  lemma {:induction false} HeadedConcat(a: seq<Frame>, b: seq<Frame>, hold: Hold)
    requires Headed(a, hold) && (HasShape(a, hold) || Headed(b, hold))
    ensures Headed(a + b, hold)
    ensures HasShape(a, hold) || HasShape(b, hold) ==> HasShape(a + b, hold)
    decreases |a|
  {
    if a == [] {
      assert a + b == b;
    } else {
      assert (a + b)[0] == a[0] && (a + b)[1..] == a[1..] + b;
      if IsShape(a[0], hold) {
        assert IsShape((a + b)[0], hold);
      } else {
        assert HasShape(a, hold) ==> HasShape(a[1..], hold) by {
          if HasShape(a, hold) {
            var i :| 0 <= i < |a| && IsShape(a[i], hold);
            assert IsShape(a[1..][i - 1], hold);
          }
        }
        HeadedConcat(a[1..], b, hold);
        if HasShape(a[1..] + b, hold) {
          var i :| 0 <= i < |a[1..] + b| && IsShape((a[1..] + b)[i], hold);
          assert IsShape((a + b)[i + 1], hold);
        }
      }
    }
  }

  lemma {:induction false} SendAllBooks(cfg: Config, o: Out, frames: seq<Frame>, received: nat)
    requires Books(cfg, o, received)
    ensures Books(cfg, SendAll(cfg, o, frames), received)
    decreases |frames|
  {
    if frames != [] {
      SendKeeps(cfg, o, frames[0]);
      SendAllBooks(cfg, Send(cfg, o, frames[0]), frames[1..], received);
    }
  }

  /** Sending frames about a hold whose unit was sent, or a unit, or frames about others. */
  lemma SendAllOrderly(cfg: Config, c: Conn, frames: seq<Frame>, received: nat, hold: Hold, shaped: bool)
    requires Orderly(cfg, c, received, hold, shaped)
    requires shaped || (hold in c.locals && c.locals[hold].unitSent) || Headed(frames, hold)
    ensures Orderly(cfg, c.(out := SendAll(cfg, c.out, frames)), received, hold, shaped)
    ensures !shaped && HasShape(frames, hold) ==> HasShape(SendAll(cfg, c.out, frames).wire, hold)
  {
    SendAllBooks(cfg, c.out, frames, received);
    SendAllOrdered(cfg, c.out, frames);
    if !shaped {
      HeadedConcat(c.out.wire, frames, hold);
    }
  }

  lemma {:induction false} Elsewhere(frames: seq<Frame>, hold: Hold)
    requires forall i :: 0 <= i < |frames| ==> !IsState(frames[i], hold)
    ensures Headed(frames, hold)
    decreases |frames|
  {
    if frames != [] {
      assert !IsState(frames[0], hold);
      forall i | 0 <= i < |frames[1..]| ensures !IsState(frames[1..][i], hold) { assert frames[1..][i] == frames[i + 1]; }
      Elsewhere(frames[1..], hold);
    }
  }

  lemma SendUnitOrderly(cfg: Config, c: Conn, h: Hold, received: nat, hold: Hold, shaped: bool)
    requires Serving(c) && Orderly(cfg, c, received, hold, shaped)
    ensures Orderly(cfg, SendUnit(cfg, c, h), received, hold, shaped)
  {
    hide Serving;
    TakeOutKeeps(cfg, c.out, UnitKey(h));
    if UnitKey(h) in c.out.slots { assert c.out.slots[UnitKey(h)].UnitSlot?; }
    var c0 := c.(out := Remove(c.out, UnitKey(h)));
    assert c0.out == TakeOut(c.out, UnitKey(h));
    if h in c.locals && c.locals[h].shape.Some? {
      var l := c.locals[h];
      var shape := ShapeFrame(h, l.shape.value, Listed(l));
      var frames := [shape] + Snapshots(c, h, Listed(l));
      SnapshotsElsewhere(c, h, Listed(l));
      if h != hold { Elsewhere(frames, hold); }
      assert frames[0] == shape;
      assert h == hold ==> Headed(frames, hold) && HasShape(frames, hold) by { assert h == hold ==> IsShape(frames[0], hold); }
      SendAllOrderly(cfg, c0, frames, received, hold, shaped);
    }
  }

  lemma ResendOrderly(cfg: Config, c: Conn, h: Hold, n: Name, received: nat, hold: Hold, shaped: bool)
    requires Serving(c) && Orderly(cfg, c, received, hold, shaped)
    ensures Orderly(cfg, Resend(cfg, c, h, n), received, hold, shaped)
  {
    if h in c.locals && n in c.locals[h].feeds {
      var f := FullFrame(h, n, ValueOf(c, h, n));
      if h != hold { Elsewhere([f], hold); }
      assert SendAll(cfg, c.out, [f]) == Send(cfg, c.out, f) by { assert [f][1..] == []; }
      SendAllOrderly(cfg, c, [f], received, hold, shaped);
    }
  }

  lemma FlushFirstOrderly(cfg: Config, c: Conn, received: nat, hold: Hold, shaped: bool)
    requires Serving(c) && Orderly(cfg, c, received, hold, shaped) && c.out.order != [] && (shaped || hold in c.locals)
    requires c.out.order[0] in c.out.slots
    ensures Orderly(cfg, FlushFirst(cfg, c), received, hold, shaped)
  {
    var key := c.out.order[0];
    TakeOutKeeps(cfg, c.out, key);
    TakeOutServing(cfg, c, key);
    var c0 := c.(out := TakeOut(c.out, key));
    match key
    case UnitKey(h) => SendUnitOrderly(cfg, c0, h, received, hold, shaped);
    case StreamKey(h, n) =>
      if c.out.slots[key].lazy {
        ResendOrderly(cfg, c0, h, n, received, hold, shaped);
      } else {
        var frames := SlotFrames(key, c.out.slots[key]);
        if h != hold { Elsewhere(frames, hold); }
        SendAllOrderly(cfg, c0, frames, received, hold, shaped);
      }
  }

  lemma {:induction false} FlushOrderly(cfg: Config, c: Conn, received: nat, hold: Hold, shaped: bool)
    requires Serving(c) && Orderly(cfg, c, received, hold, shaped) && (shaped || hold in c.locals)
    ensures Orderly(cfg, Flush(cfg, c), received, hold, shaped)
    decreases |c.out.order|
  {
    if c.out.order != [] && !WindowFull(cfg, c.out) {
      FlushFirstOrdered(cfg, c);
      FlushFirstServing(cfg, c);
      FlushFirstOrderly(cfg, c, received, hold, shaped);
      FlushFirstLocals(cfg, c);
      FlushOrderly(cfg, FlushFirst(cfg, c), received, hold, shaped);
    }
  }

  lemma FlushFirstLocals(cfg: Config, c: Conn)
    requires c.out.order != [] && c.out.order[0] in c.out.slots
    requires c.out.order[0].StreamKey? ==> c.out.slots[c.out.order[0]].StreamSlot?
    ensures FlushFirst(cfg, c).locals.Keys == c.locals.Keys
  {
  }

  lemma FlushFirstServing(cfg: Config, c: Conn)
    requires Serving(c) && c.out.order != [] && c.out.order[0] in c.out.slots
    ensures Serving(FlushFirst(cfg, c))
  {
    var key := c.out.order[0];
    var c0 := c.(out := TakeOut(c.out, key));
    TakeOutServing(cfg, c, key);
    match key
    case UnitKey(h) => SendUnitServing(cfg, c0, h);
    case StreamKey(h, n) =>
      var end := FlushFirst(cfg, c);
      if !c.out.slots[key].lazy { SendAllOrdered(cfg, c0.out, SlotFrames(key, c.out.slots[key])); }
      ServingWith(c0, end.out, end.locals, end.values);
  }

  lemma QueueUnitOrderly(cfg: Config, c: Conn, h: Hold, received: nat, hold: Hold, shaped: bool)
    requires Serving(c) && Orderly(cfg, c, received, hold, shaped) && (shaped || hold in c.locals)
    ensures Orderly(cfg, QueueUnit(cfg, c, h), received, hold, shaped)
  {
    PutKeeps(c.out, UnitKey(h), UnitSlot);
    var o := if UnitKey(h) in c.out.slots then c.out else Put(c.out, UnitKey(h), UnitSlot);
    FlushOrderly(cfg, c.(out := o), received, hold, shaped);
  }

  lemma EndFeedsOrderly(cfg: Config, c: Conn, h: Hold, gone: set<Name>, received: nat, hold: Hold, shaped: bool)
    requires Orderly(cfg, c, received, hold, shaped) && h in c.locals
    ensures Orderly(cfg, EndFeeds(c, h, gone), received, hold, shaped)
  {
    var doomed := set n | n in gone :: StreamKey(h, n);
    DropKeysKeeps(cfg, c.out, doomed, c.out.order);
    DropKeysIs(c.out, doomed, c.out.order);
    DropKeysSent(c.out, doomed, c.out.order);
  }

  lemma {:induction false} DropKeysSent(o: Out, doomed: set<Key>, keys: seq<Key>)
    ensures DropKeys(o, doomed, keys).sent == o.sent
    decreases |keys|
  {
    if keys != [] {
      DropKeysSent(if keys[0] in doomed then TakeOut(o, keys[0]) else o, doomed, keys[1..]);
    }
  }

  lemma UnitOrderly(cfg: Config, c: Conn, h: Hold, received: nat, hold: Hold, shaped: bool)
    requires ServingBut(c, h) && Orderly(cfg, c, received, hold, shaped) && (shaped || hold in c.locals)
    requires h in c.locals && c.locals[h].shape.None? ==> c.locals[h].feeds == map[]
    ensures Orderly(cfg, Unit(cfg, c, h), received, hold, shaped)
  {
    if h in c.locals && c.locals[h].shape.Some? {
      var l := c.locals[h];
      var gone := l.feeds.Keys - Fed(l);
      EndFeedsServing(cfg, c, h, gone);
      EndFeedsOrderly(cfg, c, h, gone, received, hold, shaped);
      var c1 := EndFeeds(c, h, gone);
      if c1.locals[h].feeds == map[] && !(l.again && !l.unitSent) {
        SendUnitOrderly(cfg, c1, h, received, hold, shaped);
      } else {
        QueueUnitOrderly(cfg, c1, h, received, hold, shaped);
      }
    }
  }

  lemma SendStateBooks(cfg: Config, o: Out, f: Frame, relayed: bool, received: nat)
    requires Books(cfg, o, received) && (f.FullFrame? || f.OpsFrame?)
    ensures Books(cfg, SendState(cfg, o, f, relayed).out, received)
  {
    SendStateKeeps(cfg, o, f, relayed);
    SendStateSent(cfg, o, f, relayed);
  }

  lemma SendStateSent(cfg: Config, o: Out, f: Frame, relayed: bool)
    requires f.FullFrame? || f.OpsFrame?
    ensures var end := SendState(cfg, o, f, relayed).out;
            end.acks == o.acks && ((end.wire == o.wire && end.sent == o.sent) || end == Send(cfg, o, f))
  {
    var key := StreamKey(f.hold, f.m);
    if key in o.slots || WindowFull(cfg, o) {
      var o1 := if key in o.slots then o else Put(o, key, EMPTY_SLOT.(relayed := relayed));
      if f.OpsFrame? && o1.slots[key].StreamSlot? && !o1.slots[key].lazy {
        MakeRoomSent(cfg, o1, cfg.opsSize(f.ops), key, o1.order);
      }
    }
  }

  lemma {:induction false} MakeRoomSent(cfg: Config, o: Out, size: nat, current: Key, keys: seq<Key>)
    requires current in o.slots && o.slots[current].StreamSlot?
    ensures var end := MakeRoom(cfg, o, size, current, keys).out;
            end.sent == o.sent && end.wire == o.wire && end.acks == o.acks
    decreases |keys|
  {
    if o.pendingBytes + size <= cfg.cap || keys == [] {
    } else {
      var x := keys[0];
      if x != current && x in o.slots && o.slots[x].StreamSlot? && o.slots[x].size > 0 {
        MakeRoomSent(cfg, Drop(o, x).out, size, current, keys[1..]);
      } else {
        MakeRoomSent(cfg, o, size, current, keys[1..]);
      }
    }
  }

  lemma FeedOrderly(cfg: Config, c: Conn, f: Frame, received: nat, hold: Hold, shaped: bool)
    requires Serving(c) && Orderly(cfg, c, received, hold, shaped)
    requires (f.FullFrame? || f.OpsFrame?) && f.hold in c.locals && f.m in c.locals[f.hold].feeds
    ensures Orderly(cfg, c.(out := SendState(cfg, c.out, f, false).out), received, hold, shaped)
  {
    SendStateBooks(cfg, c.out, f, false, received);
    SendStateSent(cfg, c.out, f, false);
    if f.hold != hold { Elsewhere([f], hold); }
    assert SendAll(cfg, c.out, [f]) == Send(cfg, c.out, f) by { assert [f][1..] == []; }
    SendAllOrderly(cfg, c, [f], received, hold, shaped);
  }

  lemma ChangedOrderly(cfg: Config, c: Conn, h: Hold, n: Name, ops: seq<Op>, received: nat, hold: Hold, shaped: bool)
    requires Serving(c) && Orderly(cfg, c, received, hold, shaped)
    ensures Orderly(cfg, Changed(cfg, c, h, n, ops).conn, received, hold, shaped)
  {
    if h in c.locals && n in c.locals[h].feeds {
      FeedOrderly(cfg, c, OpsFrame(h, n, Encode(c.locals[h].feeds[n], ops).wire), received, hold, shaped);
    }
  }

  lemma ReplacedOrderly(cfg: Config, c: Conn, h: Hold, n: Name, value: Value, received: nat, hold: Hold, shaped: bool)
    requires Serving(c) && Orderly(cfg, c, received, hold, shaped)
    ensures Orderly(cfg, Replaced(cfg, c, h, n, value).conn, received, hold, shaped)
  {
    if h in c.locals && n in c.locals[h].feeds {
      FeedOrderly(cfg, c, FullFrame(h, n, value), received, hold, shaped);
    }
  }

  lemma ShapeChangedOrderly(cfg: Config, c: Conn, h: Hold, shape: Shape, received: nat, hold: Hold, shaped: bool)
    requires Serving(c) && Orderly(cfg, c, received, hold, shaped) && (shaped || hold in c.locals)
    ensures Orderly(cfg, ShapeChanged(cfg, c, h, shape), received, hold, shaped)
  {
    if h in c.locals {
      UnitOrderly(cfg, c.(locals := c.locals[h := c.locals[h].(shape := Some(shape))]), h, received, hold, shaped);
    }
  }

  lemma OnWantStateOrderly(cfg: Config, c: Conn, h: Hold, wanted: bool, received: nat, hold: Hold, shaped: bool)
    requires Serving(c) && Orderly(cfg, c, received, hold, shaped) && (shaped || hold in c.locals)
    ensures Orderly(cfg, OnWantState(cfg, c, h, wanted), received, hold, shaped)
  {
    if h in c.locals && c.locals[h].wantsState != wanted {
      var l := c.locals[h];
      if wanted {
        UnitOrderly(cfg, c.(locals := c.locals[h := l.(wantsState := true)]), h, received, hold, shaped);
      } else {
        var doomed := KeysOfHold(c.out, h);
        DropKeysKeeps(cfg, c.out, doomed, c.out.order);
        DropKeysIs(c.out, doomed, c.out.order);
        DropKeysSent(c.out, doomed, c.out.order);
      }
    }
  }

  lemma OnResyncOrderly(cfg: Config, c: Conn, h: Hold, n: Name, received: nat, hold: Hold, shaped: bool)
    requires Serving(c) && Orderly(cfg, c, received, hold, shaped) && (shaped || hold in c.locals)
    ensures Orderly(cfg, OnResync(cfg, c, h, n), received, hold, shaped)
  {
    if h in c.locals && n in c.locals[h].feeds {
      LaziedServing(c, h, n);
      LaziedKeeps(cfg, c.out, StreamKey(h, n));
      FlushOrderly(cfg, c.(out := Lazied(c.out, StreamKey(h, n))), received, hold, shaped);
    }
  }

  lemma OnAckOrderly(cfg: Config, c: Conn, n: nat, received: nat, hold: Hold, shaped: bool)
    requires Serving(c) && Orderly(cfg, c, received, hold, shaped) && (shaped || hold in c.locals) && AckAllowed(c.out, n)
    ensures Orderly(cfg, OnAck(cfg, c, n), received, hold, shaped)
  {
    AcknowledgeKeeps(cfg, c.out, n);
    ServingWith(c, Acknowledge(c.out, n), c.locals, c.values);
    FlushOrderly(cfg, c.(out := Acknowledge(c.out, n)), received, hold, shaped);
  }
}
