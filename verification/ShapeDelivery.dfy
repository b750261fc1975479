/**
 Does the consumer of a hold always end with the current shape?  A unit carries it, at once or from a slot; the
 slot of a unit that waits is lost when the consumer stops the state.
 */
module ShapeDelivery {
  import opened DeltaCodec
  import opened Wire
  import opened Wrappers
  import opened Remote
  import opened Lanes
  import opened FlowControl
  import opened Provider
  import opened ProviderBooks
  import opened DirectLink

  /** The shape of the hold once `frames` arrived, `last` before. */
  function LastShape(frames: seq<Frame>, hold: Hold, last: Option<Shape>): Option<Shape>
    decreases |frames|
  {
    if frames == [] then last
    else LastShape(frames[1..], hold, if IsShape(frames[0], hold) then Some(frames[0].shape) else last)
  }

  lemma {:induction false} LastShapeConcat(a: seq<Frame>, b: seq<Frame>, hold: Hold, last: Option<Shape>)
    ensures LastShape(a + b, hold, last) == LastShape(b, hold, LastShape(a, hold, last))
    decreases |a|
  {
    if a == [] {
      assert a + b == b;
    } else {
      assert (a + b)[0] == a[0] && (a + b)[1..] == a[1..] + b;
      LastShapeConcat(a[1..], b, hold, if IsShape(a[0], hold) then Some(a[0].shape) else last);
    }
  }

  lemma {:induction false} NoShape(frames: seq<Frame>, hold: Hold, last: Option<Shape>)
    requires forall i :: 0 <= i < |frames| ==> !IsShape(frames[i], hold)
    ensures LastShape(frames, hold, last) == last
    decreases |frames|
  {
    if frames != [] {
      assert !IsShape(frames[0], hold);
      forall i | 0 <= i < |frames[1..]| ensures !IsShape(frames[1..][i], hold) { assert frames[1..][i] == frames[i + 1]; }
      NoShape(frames[1..], hold, last);
    }
  }

  lemma {:induction false} SnapshotsAreState(c: Conn, h: Hold, names: seq<Name>)
    ensures forall i :: 0 <= i < |Snapshots(c, h, names)| ==> Snapshots(c, h, names)[i].FullFrame?
    decreases |names|
  {
    if names != [] { SnapshotsAreState(c, h, names[1..]); }
  }

  /** What the consumer will have: `taken` is the last shape it took off the link. */
  function Final(c: Conn, hold: Hold, taken: Option<Shape>): Option<Shape> {
    LastShape(c.out.wire, hold, taken)
  }

  predicate HasShapeOf(c: Conn, hold: Hold) {
    hold in c.locals && c.locals[hold].shape.Some?
  }

  /** The current shape is on its way, was taken, or a unit waits that will carry it. */
  predicate Promised(c: Conn, hold: Hold, taken: Option<Shape>) {
    hold in c.locals && c.locals[hold].shape.Some? ==>
      UnitKey(hold) in c.out.slots || Final(c, hold, taken) == c.locals[hold].shape
  }

  /** Nothing about the shape of the hold changed. */
  ghost predicate SameShape(c: Conn, q: Conn, hold: Hold, taken: Option<Shape>) {
    && (hold in q.locals <==> hold in c.locals) && (hold in c.locals ==> q.locals[hold].shape == c.locals[hold].shape)
    && (UnitKey(hold) in q.out.slots <==> UnitKey(hold) in c.out.slots)
    && Final(q, hold, taken) == Final(c, hold, taken)
  }

  /** The current shape went out just now. */
  ghost predicate ShapeSent(c: Conn, q: Conn, hold: Hold, taken: Option<Shape>) {
    && hold in c.locals && hold in q.locals && c.locals[hold].shape.Some? && q.locals[hold].shape == c.locals[hold].shape
    && Final(q, hold, taken) == c.locals[hold].shape
  }

  lemma SendUnitShape(cfg: Config, c: Conn, h: Hold, hold: Hold, taken: Option<Shape>)
    ensures h == hold && h in c.locals && c.locals[h].shape.Some? ==> ShapeSent(c, SendUnit(cfg, c, h), hold, taken)
    ensures h != hold ==> SameShape(c, SendUnit(cfg, c, h), hold, taken)
    ensures !(h in c.locals && c.locals[h].shape.Some?) ==>
              Final(SendUnit(cfg, c, h), hold, taken) == Final(c, hold, taken) && SendUnit(cfg, c, h).locals == c.locals
  {
    if h in c.locals && c.locals[h].shape.Some? {
      var l := c.locals[h];
      var first, rest := ShapeFrame(h, l.shape.value, Listed(l)), Snapshots(c, h, Listed(l));
      SendAllOrdered(cfg, Remove(c.out, UnitKey(h)), [first] + rest);
      LastShapeConcat(c.out.wire, [first] + rest, hold, taken);
      SnapshotsAreState(c, h, Listed(l));
      var last := LastShape(c.out.wire, hold, taken);
      assert ([first] + rest)[1..] == rest;
      NoShape(rest, hold, if h == hold then l.shape else last);
    }
  }

  lemma StateFramesShape(c: Conn, q: Conn, frames: seq<Frame>, hold: Hold, taken: Option<Shape>)
    requires q.out.wire == c.out.wire + frames && forall i :: 0 <= i < |frames| ==> frames[i].FullFrame? || frames[i].OpsFrame?
    requires (UnitKey(hold) in q.out.slots <==> UnitKey(hold) in c.out.slots)
    requires (hold in q.locals <==> hold in c.locals) && (hold in c.locals ==> q.locals[hold].shape == c.locals[hold].shape)
    ensures SameShape(c, q, hold, taken)
  {
    LastShapeConcat(c.out.wire, frames, hold, taken);
    NoShape(frames, hold, LastShape(c.out.wire, hold, taken));
  }

  lemma FlushFirstShape(cfg: Config, c: Conn, hold: Hold, taken: Option<Shape>)
    requires Ordered(c.out) && c.out.order != []
    ensures c.out.order[0] in c.out.slots && (c.out.order[0].StreamKey? ==> c.out.slots[c.out.order[0]].StreamSlot?)
    ensures var q := FlushFirst(cfg, c);
            || SameShape(c, q, hold, taken)
            || (UnitKey(hold) in c.out.slots && ShapeSent(c, q, hold, taken))
            || (!HasShapeOf(c, hold) && !HasShapeOf(q, hold))
  {
    var key := c.out.order[0];
    assert key in c.out.order;
    var c0 := c.(out := TakeOut(c.out, key));
    match key
    case UnitKey(h) => SendUnitShape(cfg, c0, h, hold, taken);
    case StreamKey(h, n) =>
      var slot := c.out.slots[key];
      if slot.lazy {
        if !slot.relayed && h in c.locals && n in c.locals[h].feeds {
          StateFramesShape(c, FlushFirst(cfg, c), [FullFrame(h, n, ValueOf(c, h, n))], hold, taken);
        }
      } else {
        SendAllOrdered(cfg, c0.out, SlotFrames(key, slot));
        StateFramesShape(c, FlushFirst(cfg, c), SlotFrames(key, slot), hold, taken);
      }
  }

  /** Flushing neither loses nor finds a shape. */
  lemma {:induction false} FlushShape(cfg: Config, c: Conn, hold: Hold, taken: Option<Shape>)
    requires Ordered(c.out)
    ensures Promised(Flush(cfg, c), hold, taken) <==> Promised(c, hold, taken)
    decreases |c.out.order|
  {
    if c.out.order != [] && !WindowFull(cfg, c.out) {
      FlushFirstOrdered(cfg, c);
      FlushFirstShape(cfg, c, hold, taken);
      hide FlushFirst;
      FlushShape(cfg, FlushFirst(cfg, c), hold, taken);
    }
  }

  lemma QueueUnitShape(cfg: Config, c: Conn, h: Hold, hold: Hold, taken: Option<Shape>)
    requires Ordered(c.out)
    ensures h == hold ==> Promised(QueueUnit(cfg, c, h), hold, taken)
    ensures h != hold ==> (Promised(QueueUnit(cfg, c, h), hold, taken) <==> Promised(c, hold, taken))
  {
    var key := UnitKey(h);
    var o := if key in c.out.slots then c.out else Put(c.out, key, UnitSlot);
    PutOrdered(c.out, key, UnitSlot);
    FlushShape(cfg, c.(out := o), hold, taken);
    hide Flush;
  }

  lemma EndFeedsShape(c: Conn, h: Hold, gone: set<Name>, hold: Hold, taken: Option<Shape>)
    requires h in c.locals
    ensures SameShape(c, EndFeeds(c, h, gone), hold, taken)
  {
    DropKeysIs(c.out, (set n | n in gone :: StreamKey(h, n)), c.out.order);
    hide DropKeys;
  }

  /** A unit brings the shape, whatever was promised before. */
  lemma UnitShape(cfg: Config, c: Conn, h: Hold, hold: Hold, taken: Option<Shape>)
    requires Ordered(c.out)
    ensures h == hold && h in c.locals && c.locals[h].shape.Some? ==> Promised(Unit(cfg, c, h), hold, taken)
    ensures h != hold ==> (Promised(Unit(cfg, c, h), hold, taken) <==> Promised(c, hold, taken))
  {
    if h in c.locals && c.locals[h].shape.Some? {
      var l := c.locals[h];
      var gone := l.feeds.Keys - Fed(l);
      var c1 := EndFeeds(c, h, gone);
      EndFeedsShape(c, h, gone, hold, taken);
      DropKeysKeeps(cfg, c.out, (set n | n in gone :: StreamKey(h, n)), c.out.order);
      SendUnitShape(cfg, c1, h, hold, taken);
      QueueUnitShape(cfg, c1, h, hold, taken);
      hide SendUnit, QueueUnit, DropKeys, Final, Ordered;
    }
  }

  // ---------------------------------------------------------------- operations

  lemma ShapeChangedShape(cfg: Config, c: Conn, h: Hold, shape: Shape, hold: Hold, taken: Option<Shape>)
    requires Ordered(c.out)
    ensures Promised(c, hold, taken) || h == hold ==> Promised(ShapeChanged(cfg, c, h, shape), hold, taken)
  {
    if h in c.locals {
      UnitShape(cfg, c.(locals := c.locals[h := c.locals[h].(shape := Some(shape))]), h, hold, taken);
    }
    hide Unit;
  }

  lemma MakeRoomUnits(cfg: Config, o: Out, size: nat, current: Key, keys: seq<Key>, hold: Hold)
    requires current in o.slots && o.slots[current].StreamSlot? && Ordered(o)
    ensures UnitKey(hold) in MakeRoom(cfg, o, size, current, keys).out.slots <==> UnitKey(hold) in o.slots
  {
    MakeRoomIs(cfg, o, size, current, keys, UnitKey(hold));
    hide MakeRoom;
  }

  lemma SendStateUnits(cfg: Config, o: Out, f: Frame, hold: Hold)
    requires Ordered(o) && (f.FullFrame? || f.OpsFrame?)
    ensures UnitKey(hold) in SendState(cfg, o, f, false).out.slots <==> UnitKey(hold) in o.slots
  {
    var key := StreamKey(f.hold, f.m);
    if key in o.slots || WindowFull(cfg, o) {
      var o1 := if key in o.slots then o else Put(o, key, EMPTY_SLOT.(relayed := false));
      PutOrdered(o, key, EMPTY_SLOT);
      if f.OpsFrame? && !o1.slots[key].lazy { MakeRoomUnits(cfg, o1, cfg.opsSize(f.ops), key, o1.order, hold); }
    }
    hide MakeRoom, Ordered;
  }

  lemma FedShape(cfg: Config, c: Conn, f: Frame, hold: Hold, taken: Option<Shape>)
    requires Ordered(c.out) && (f.FullFrame? || f.OpsFrame?)
    ensures SameShape(c, c.(out := SendState(cfg, c.out, f, false).out), hold, taken)
  {
    var q := c.(out := SendState(cfg, c.out, f, false).out);
    SendStateSent(cfg, c.out, f, false);
    SendStateUnits(cfg, c.out, f, hold);
    hide SendState, Ordered;
    if q.out.wire == c.out.wire {
      assert c.out.wire + [] == c.out.wire;
      StateFramesShape(c, q, [], hold, taken);
    } else {
      StateFramesShape(c, q, [f], hold, taken);
    }
  }

  /** Changes of members, resyncs and acks neither lose nor find a shape. */
  lemma ChangedShape(cfg: Config, c: Conn, h: Hold, n: Name, ops: seq<Op>, hold: Hold, taken: Option<Shape>)
    requires Ordered(c.out)
    ensures Promised(Changed(cfg, c, h, n, ops).conn, hold, taken) <==> Promised(c, hold, taken)
  {
    if h in c.locals && n in c.locals[h].feeds {
      FedShape(cfg, c, OpsFrame(h, n, Encode(c.locals[h].feeds[n], ops).wire), hold, taken);
      hide SendState, Final;
    }
  }

  lemma ReplacedShape(cfg: Config, c: Conn, h: Hold, n: Name, value: Value, hold: Hold, taken: Option<Shape>)
    requires Ordered(c.out)
    ensures Promised(Replaced(cfg, c, h, n, value).conn, hold, taken) <==> Promised(c, hold, taken)
  {
    if h in c.locals && n in c.locals[h].feeds {
      FedShape(cfg, c, FullFrame(h, n, value), hold, taken);
      hide SendState, Final;
    }
  }

  lemma ResyncShape(cfg: Config, c: Conn, h: Hold, n: Name, hold: Hold, taken: Option<Shape>)
    requires Ordered(c.out)
    ensures Promised(OnResync(cfg, c, h, n), hold, taken) <==> Promised(c, hold, taken)
  {
    if h in c.locals && n in c.locals[h].feeds {
      LaziedKeeps(cfg, c.out, StreamKey(h, n));
      FlushShape(cfg, c.(out := Lazied(c.out, StreamKey(h, n))), hold, taken);
      hide Flush;
    }
  }

  lemma AckShape(cfg: Config, c: Conn, n: nat, hold: Hold, taken: Option<Shape>)
    requires Ordered(c.out) && AckAllowed(c.out, n) && n - c.out.acked <= |c.out.unacked|
    ensures Promised(OnAck(cfg, c, n), hold, taken) <==> Promised(c, hold, taken)
  {
    FlushShape(cfg, c.(out := Acknowledge(c.out, n)), hold, taken);
    hide Flush;
  }

  /** The exact condition: stopping the state loses a shape just when the unit that waits is all that carries it. */
  lemma UnsubShape(cfg: Config, c: Conn, h: Hold, hold: Hold, taken: Option<Shape>)
    requires Ordered(c.out) && Promised(c, hold, taken)
    ensures Promised(OnWantState(cfg, c, h, false), hold, taken) <==>
            !(h == hold && h in c.locals && c.locals[h].wantsState && c.locals[h].shape.Some?
              && UnitKey(h) in c.out.slots && Final(c, h, taken) != c.locals[h].shape)
  {
    if h in c.locals && c.locals[h].wantsState {
      DropKeysIs(c.out, KeysOfHold(c.out, h), c.out.order);
      hide DropKeys;
    }
  }

  lemma SubShape(cfg: Config, c: Conn, h: Hold, hold: Hold, taken: Option<Shape>)
    requires Ordered(c.out) && Promised(c, hold, taken)
    ensures Promised(OnWantState(cfg, c, h, true), hold, taken)
  {
    if h in c.locals && !c.locals[h].wantsState {
      UnitShape(cfg, c.(locals := c.locals[h := c.locals[h].(wantsState := true)]), h, hold, taken);
    }
    hide Unit;
  }

  // ---------------------------------------------------------------- every run of a link

  /** The last shape of the hold the consumer took off the link, after a step. */
  function TakenAfter(n: Net, s: Step, hold: Hold, taken: Option<Shape>): Option<Shape> {
    if s.Deliver? && n.conn.out.wire != [] && IsShape(n.conn.out.wire[0], hold) then Some(n.conn.out.wire[0].shape) else taken
  }

  /** The provider stops the state of the hold while a unit waits, and the last unit it sent had another shape. */
  predicate Loses(n: Net, s: Step, hold: Hold, taken: Option<Shape>) {
    && s.Serve? && n.requests != [] && n.requests[0] == Unsub(hold)
    && hold in n.conn.locals && n.conn.locals[hold].wantsState && n.conn.locals[hold].shape.Some?
    && UnitKey(hold) in n.conn.out.slots && Final(n.conn, hold, taken) != n.conn.locals[hold].shape
  }

  lemma SameOut(c: Conn, q: Conn, hold: Hold, taken: Option<Shape>)
    requires q.locals == c.locals && q.out.wire == c.out.wire && q.out.slots == c.out.slots
    ensures Promised(q, hold, taken) <==> Promised(c, hold, taken)
  {
  }

  lemma ActPromised(cfg: Config, c: Conn, act: Act, hold: Hold, taken: Option<Shape>)
    requires Ordered(c.out) && Promised(c, hold, taken)
    ensures Promised(DoAct(cfg, c, act), hold, taken)
  {
    match act
    case Change(h, m, ops) => if WellFormed(ops) { ChangedShape(cfg, c, h, m, ops, hold, taken); }
    case SetValue(h, m, value) => ReplacedShape(cfg, c, h, m, value, hold, taken);
    case Reshape(h, shape) => ShapeChangedShape(cfg, c, h, shape, hold, taken);
    case SendOther(text) =>
      LastShapeConcat(c.out.wire, [OtherFrame(text)], hold, taken);
      NoShape([OtherFrame(text)], hold, LastShape(c.out.wire, hold, taken));
    hide Promised;
  }

  lemma RequestPromised(cfg: Config, c: Conn, r: Request, hold: Hold, taken: Option<Shape>)
    requires Ordered(c.out) && Promised(c, hold, taken) && ServeRequest(cfg, c, r).Some? && !r.Unsub?
    ensures Promised(ServeRequest(cfg, c, r).value, hold, taken)
  {
    match r
    case Hello(acks) => SameOut(c, c.(out := FlowControl.Hello(c.out, acks)), hold, taken);
    case Ack(n) => AckShape(cfg, c, n, hold, taken);
    case Sub(h) => SubShape(cfg, c, h, hold, taken);
    case Resync(h, m) => ResyncShape(cfg, c, h, m, hold, taken);
    hide Promised;
  }

  lemma ServePromised(cfg: Config, acking: bool, n: Net, hold: Hold, taken: Option<Shape>)
    requires Inv(cfg, acking, n) && Promised(n.conn, hold, taken)
    ensures Promised(Next(cfg, acking, n, Serve).conn, hold, taken) <==> !Loses(n, Serve, hold, taken)
  {
    assert Ordered(n.conn.out);
    if n.requests != [] {
      AckNeverViolates(cfg, acking, n);
      hide Inv;
      match n.requests[0]
      case Unsub(h) => UnsubShape(cfg, n.conn, h, hold, taken);
      case r => RequestPromised(cfg, n.conn, r, hold, taken);
    }
    hide Promised, OnWantState;
  }

  lemma DeliverPromised(cfg: Config, acking: bool, n: Net, hold: Hold, taken: Option<Shape>)
    requires Ordered(n.conn.out)
    ensures Promised(Next(cfg, acking, n, Deliver).conn, hold, TakenAfter(n, Deliver, hold, taken))
            <==> Promised(n.conn, hold, taken)
  {
  }

  lemma StepPromised(cfg: Config, acking: bool, n: Net, s: Step, hold: Hold, taken: Option<Shape>)
    requires Inv(cfg, acking, n) && Promised(n.conn, hold, taken)
    ensures Promised(Next(cfg, acking, n, s).conn, hold, TakenAfter(n, s, hold, taken)) <==> !Loses(n, s, hold, taken)
  {
    assert Ordered(n.conn.out);
    match s
    case Provide(act) => ActPromised(cfg, n.conn, act, hold, taken);
    case Serve => ServePromised(cfg, acking, n, hold, taken);
    case Deliver => DeliverPromised(cfg, acking, n, hold, taken);
    case _ => SameOut(n.conn, Next(cfg, acking, n, s).conn, hold, taken);
    hide Inv, Promised;
  }

  /** In every state of the run. */
  ghost predicate PromisedRun(cfg: Config, acking: bool, n: Net, steps: seq<Step>, hold: Hold, taken: Option<Shape>)
    requires Inv(cfg, acking, n)
    decreases |steps|
  {
    && Promised(n.conn, hold, taken)
    && (steps == [] ||
        (NextKeeps(cfg, acking, n, steps[0]);
         PromisedRun(cfg, acking, Next(cfg, acking, n, steps[0]), steps[1..], hold, TakenAfter(n, steps[0], hold, taken))))
  }

  ghost predicate NeverLoses(cfg: Config, acking: bool, n: Net, steps: seq<Step>, hold: Hold, taken: Option<Shape>)
    requires Inv(cfg, acking, n)
    decreases |steps|
  {
    steps == [] ||
    (NextKeeps(cfg, acking, n, steps[0]);
     && !Loses(n, steps[0], hold, taken)
     && NeverLoses(cfg, acking, Next(cfg, acking, n, steps[0]), steps[1..], hold, TakenAfter(n, steps[0], hold, taken)))
  }

  lemma {:induction false} PromisedFrom(cfg: Config, acking: bool, n: Net, steps: seq<Step>, hold: Hold, taken: Option<Shape>)
    requires Inv(cfg, acking, n) && Promised(n.conn, hold, taken)
    ensures PromisedRun(cfg, acking, n, steps, hold, taken) <==> NeverLoses(cfg, acking, n, steps, hold, taken)
    decreases |steps|
  {
    if steps != [] {
      StepPromised(cfg, acking, n, steps[0], hold, taken);
      NextKeeps(cfg, acking, n, steps[0]);
      var next, after := Next(cfg, acking, n, steps[0]), TakenAfter(n, steps[0], hold, taken);
      hide Next, Inv, Promised, Loses, TakenAfter;
      if Promised(next.conn, hold, after) {
        PromisedFrom(cfg, acking, next, steps[1..], hold, after);
      }
    }
  }

  /**
   The exact condition, over every run of a hold on a link that just opened: in every state the current shape is on its
   way, was taken or will be carried by a unit that waits, if and only if the provider never stops the state of the
   hold while a unit waits that alone carries the shape.
   */
  lemma ShapesDelivered(cfg: Config, acking: bool, n: Net, steps: seq<Step>, hold: Hold)
    requires Opened(acking, n) && hold in n.conn.locals && n.conn.locals[hold].shape.None?
    ensures Inv(cfg, acking, n)
    ensures PromisedRun(cfg, acking, n, steps, hold, None) <==> NeverLoses(cfg, acking, n, steps, hold, None)
  {
    OpenedInv(cfg, acking, n);
    PromisedFrom(cfg, acking, n, steps, hold, None);
  }

  // ---------------------------------------------------------------- what the consumer has in the end

  /** The newest shape the binding has, applied or waiting for its snapshots, is the last one it took. */
  predicate Has(n: Net, hold: Hold, taken: Option<Shape>) {
    hold in n.bindings && !n.bindings[hold].status.Ended? && (taken.Some? ==> Latest(n.bindings[hold]) == taken)
  }

  lemma FrameLatest(b: Binding, hold: Hold, f: Frame)
    requires !b.status.Ended?
    ensures Latest(Receive(b, hold, f)) == if IsShape(f, hold) then Some(f.shape) else Latest(b)
    ensures !Receive(b, hold, f).status.Ended?
  {
    match f
    case ShapeFrame(_, shape, listed) => ShapedLatest(b, shape, listed);
    case FullFrame(_, m, value) => ArrivedLatest(b, m, value);
    case _ =>
    hide Shaped, Arrived;
  }

  lemma ShapedLatest(b: Binding, shape: Shape, listed: seq<Name>)
    requires !b.status.Ended?
    ensures Latest(Shaped(b, shape, listed)) == Some(shape) && !Shaped(b, shape, listed).status.Ended?
  {
  }

  lemma ArrivedLatest(b: Binding, m: Name, value: Value)
    requires !b.status.Ended?
    ensures Latest(Arrived(b, m, value)) == Latest(b) && !Arrived(b, m, value).status.Ended?
  {
  }

  lemma StepHas(cfg: Config, acking: bool, n: Net, s: Step, hold: Hold, taken: Option<Shape>)
    requires Ordered(n.conn.out) && Has(n, hold, taken)
    ensures Has(Next(cfg, acking, n, s), hold, TakenAfter(n, s, hold, taken))
  {
    hide DoAct, ServeRequest, Receive, Ordered;
    if s.Deliver? && n.conn.out.wire != [] { FrameLatest(n.bindings[hold], hold, n.conn.out.wire[0]); }
  }

  lemma {:induction false} EndsPromised(cfg: Config, acking: bool, n: Net, steps: seq<Step>, hold: Hold, taken: Option<Shape>)
    returns (last: Option<Shape>)
    requires Inv(cfg, acking, n) && Promised(n.conn, hold, taken) && Has(n, hold, taken)
    requires NeverLoses(cfg, acking, n, steps, hold, taken)
    ensures Promised(Run(cfg, acking, n, steps).conn, hold, last) && Has(Run(cfg, acking, n, steps), hold, last)
    decreases |steps|
  {
    last := taken;
    if steps != [] {
      assert Ordered(n.conn.out);
      StepPromised(cfg, acking, n, steps[0], hold, taken);
      StepHas(cfg, acking, n, steps[0], hold, taken);
      NextKeeps(cfg, acking, n, steps[0]);
      var next, after := Next(cfg, acking, n, steps[0]), TakenAfter(n, steps[0], hold, taken);
      hide Next, Inv, Promised, Loses, TakenAfter, Has;
      last := EndsPromised(cfg, acking, next, steps[1..], hold, after);
    }
  }

  predicate QuietLink(n: Net) {
    n.conn.out.wire == [] && n.conn.out.slots == map[] && n.requests == []
  }

  /** Once the link is quiet the consumer has the current shape. */
  lemma QuietHasShape(cfg: Config, acking: bool, n: Net, steps: seq<Step>, hold: Hold)
    requires Opened(acking, n) && hold in n.conn.locals && n.conn.locals[hold].shape.None? && Inv(cfg, acking, n)
    requires NeverLoses(cfg, acking, n, steps, hold, None) && QuietLink(Run(cfg, acking, n, steps))
    ensures var end := Run(cfg, acking, n, steps);
            hold in end.conn.locals && end.conn.locals[hold].shape.Some? ==>
              hold in end.bindings && Latest(end.bindings[hold]) == end.conn.locals[hold].shape
  {
    assert Promised(n.conn, hold, None) && Has(n, hold, None);
    hide Inv, Run, NeverLoses, Opened;
    var last := EndsPromised(cfg, acking, n, steps, hold, None);
  }

  // ---------------------------------------------------------------- a run that loses a shape

  const WINDOW_OF_ONE := Config(1, 0, f => 1, ops => 1)
  const CONTRACT: Contract := map["v" := {"m"}]
  const FIRST := Shape(Some("v"), ["m"])
  const SECOND := Shape(Some("v"), ["m", "n"])
  const EMPTY_VALUE := Value("", [])

  function ServedAs(shape: Option<Shape>, fed: bool, wants: bool): Local {
    Local(CONTRACT, shape, wants, false, shape.Some?, if fed then map["m" := FRESH_ENCODER] else map[])
  }

  /** With view 0, which wants state, or after it left with view 1, which does not. */
  function Consumer(shape: Option<Shape>, on: bool): Binding {
    var has := on && shape.Some?;
    Binding(CONTRACT, if shape.Some? then Live else Loading, shape, has, on, if on then map[0 := true] else map[1 := false],
            if has then map["m" := Fresh(EMPTY_VALUE)] else map[], None)
  }

  function Link(out: Out, l: Local, b: Binding, requests: seq<Request>, received: nat): Net {
    Net(Conn(out, map[0 := l], map[]), requests, received, map[0 := b], false)
  }

  function Sent(unacked: seq<nat>, acked: nat): Out {
    Out(Some(true), |unacked| + acked, acked, unacked, |unacked|, map[], [], 0, [])
  }

  const START := Link(Out(None, 0, 0, [], 0, map[], [], 0, []), ServedAs(None, false, true), Consumer(None, true), [Request.Hello(true)], 0)

  lemma StartOpened()
    ensures Opened(true, START) && Inv(WINDOW_OF_ONE, true, START)
  {
    assert Consistent(Consumer(None, true)) by { assert StateViews(Consumer(None, true)) by { assert map[0 := true][0]; } }
    OpenedInv(WINDOW_OF_ONE, true, START);
  }

  lemma HelloServed()
    ensures Ordered(START.conn.out)
    ensures Next(WINDOW_OF_ONE, true, START, Serve) == Link(Sent([], 0), ServedAs(None, false, true), Consumer(None, true), [], 0)
  {
    assert START.requests[1..] == [];
  }

  const UNIT_FRAMES := [ShapeFrame(0, FIRST, ["m"]), FullFrame(0, "m", EMPTY_VALUE)]

  lemma UnitSent()
    ensures SendAll(WINDOW_OF_ONE, Sent([], 0), UNIT_FRAMES) == Sent([1, 1], 0).(wire := UNIT_FRAMES)
  {
    var first, second := UNIT_FRAMES[0], UNIT_FRAMES[1];
    assert UNIT_FRAMES[1..] == [second] && [second][1..] == [];
    var one := Send(WINDOW_OF_ONE, Sent([], 0), first);
    assert one == Sent([1], 0).(wire := [first]);
    var two := Send(WINDOW_OF_ONE, one, second);
    assert two == Sent([1, 1], 0).(wire := UNIT_FRAMES);
    assert SendAll(WINDOW_OF_ONE, one, [second]) == SendAll(WINDOW_OF_ONE, two, []);
    assert SendAll(WINDOW_OF_ONE, Sent([], 0), UNIT_FRAMES) == SendAll(WINDOW_OF_ONE, one, [second]);
  }

  lemma FirstUnit()
    ensures var n := Link(Sent([], 0), ServedAs(None, false, true), Consumer(None, true), [], 0);
            && Ordered(n.conn.out)
            && Next(WINDOW_OF_ONE, true, n, Provide(Reshape(0, FIRST)))
               == Link(Sent([1, 1], 0).(wire := UNIT_FRAMES), ServedAs(Some(FIRST), true, true), Consumer(None, true), [], 0)
  {
    var n := Link(Sent([], 0), ServedAs(None, false, true), Consumer(None, true), [], 0);
    var l := ServedAs(None, false, true).(shape := Some(FIRST));
    var c := n.conn.(locals := n.conn.locals[0 := l]);
    assert EndFeeds(c, 0, {}) == c;
    FirstListed(l);
    UnitSent();
    hide Listed, Fed, Pick, SendAll;
    assert SendUnit(WINDOW_OF_ONE, c, 0).out == Sent([1, 1], 0).(wire := UNIT_FRAMES) by {
      assert Snapshots(c, 0, ["m"]) == [FullFrame(0, "m", EMPTY_VALUE)] by { assert ["m"][1..] == []; }
      assert [ShapeFrame(0, FIRST, ["m"])] + [FullFrame(0, "m", EMPTY_VALUE)] == UNIT_FRAMES;
    }
    assert map[] + (map n | n in ["m"] :: FRESH_ENCODER) == map["m" := FRESH_ENCODER];
  }

  lemma FirstListed(l: Local)
    requires l.contract == CONTRACT && l.shape == Some(FIRST) && l.wantsState
    ensures Fed(l) == {"m"} && (l.feeds == map[] ==> Listed(l) == ["m"])
  {
    assert FIRST.members[1..] == [];
  }

  /** A second shape with the same streams waits: the window is full. */
  function WaitingUnit(acked: nat): Out {
    Sent([1, 1], acked).(slots := map[UnitKey(0) := UnitSlot], order := [UnitKey(0)])
  }

  lemma SecondWaits()
    ensures var n := Link(Sent([1, 1], 0).(wire := UNIT_FRAMES), ServedAs(Some(FIRST), true, true), Consumer(None, true), [], 0);
            && Ordered(n.conn.out)
            && Next(WINDOW_OF_ONE, true, n, Provide(Reshape(0, SECOND)))
               == Link(WaitingUnit(0).(wire := UNIT_FRAMES), ServedAs(Some(SECOND), true, true), Consumer(None, true), [], 0)
  {
    var n := Link(Sent([1, 1], 0).(wire := UNIT_FRAMES), ServedAs(Some(FIRST), true, true), Consumer(None, true), [], 0);
    var l := ServedAs(Some(FIRST), true, true).(shape := Some(SECOND));
    var c := n.conn.(locals := n.conn.locals[0 := l]);
    assert Fed(l) == {"m"} by { assert "m" in SECOND.members && "m" in CONTRACT["v"]; }
    assert l.feeds.Keys - Fed(l) == {};
    assert l.feeds - {} == l.feeds;
    assert EndFeeds(c, 0, {}) == c;
    hide Fed;
  }

  function Taking(shape: Shape): Binding {
    Binding(CONTRACT, Loading, None, false, true, map[0 := true], map[], Some(Pending(shape, {"m"}, map[])))
  }

  lemma ShapeTaken()
    ensures var n := Link(WaitingUnit(0).(wire := UNIT_FRAMES), ServedAs(Some(SECOND), true, true), Consumer(None, true), [], 0);
            && Ordered(n.conn.out)
            && Next(WINDOW_OF_ONE, true, n, Deliver)
               == Link(WaitingUnit(0).(wire := UNIT_FRAMES[1..]), ServedAs(Some(SECOND), true, true), Taking(FIRST), [], 1)
  {
    var n := Link(WaitingUnit(0).(wire := UNIT_FRAMES), ServedAs(Some(SECOND), true, true), Consumer(None, true), [], 0);
    assert Wanted(CONTRACT, FIRST) == {"m"};
    assert ((set x | x in ["m"]) + {}) * Wanted(CONTRACT, FIRST) == {"m"};
    assert Shaped(Consumer(None, true), FIRST, ["m"]) == Taking(FIRST);
    assert Receive(Consumer(None, true), 0, UNIT_FRAMES[0]) == Taking(FIRST);
    hide Receive;
  }

  lemma SnapshotTaken()
    ensures var n := Link(WaitingUnit(0).(wire := UNIT_FRAMES[1..]), ServedAs(Some(SECOND), true, true), Taking(FIRST), [], 1);
            && Ordered(n.conn.out)
            && Next(WINDOW_OF_ONE, true, n, Deliver)
               == Link(WaitingUnit(0), ServedAs(Some(SECOND), true, true), Consumer(Some(FIRST), true), [], 2)
  {
    var n := Link(WaitingUnit(0).(wire := UNIT_FRAMES[1..]), ServedAs(Some(SECOND), true, true), Taking(FIRST), [], 1);
    assert Wanted(CONTRACT, FIRST) == {"m"};
    assert {"m"} - {"m"} == {};
    assert UNIT_FRAMES[1..][1..] == [];
    var p := Pending(FIRST, {}, map["m" := Fresh(EMPTY_VALUE)]);
    assert Applied(Taking(FIRST).(pending := Some(p))) == Consumer(Some(FIRST), true);
    assert Receive(Taking(FIRST), 0, UNIT_FRAMES[1]) == Consumer(Some(FIRST), true);
    hide Receive;
  }

  const BOTH_VIEWS := Consumer(Some(FIRST), true).(views := map[0 := true, 1 := false])

  lemma ViewsChange()
    ensures ViewAdded(Consumer(Some(FIRST), true), 1, false) == BOTH_VIEWS
    ensures ViewRemoved(BOTH_VIEWS, 0) == Consumer(Some(FIRST), false)
  {
    assert Joined(Consumer(Some(FIRST), true).views, 1, false) == BOTH_VIEWS.views;
    assert StateViews(BOTH_VIEWS) by { assert BOTH_VIEWS.views[0]; }
    var b := BOTH_VIEWS.(views := map[1 := false]);
    assert BOTH_VIEWS.views - {0} == b.views;
    assert !StateViews(b) && 1 in b.views;
  }

  lemma ViewJoins()
    ensures var n := Link(WaitingUnit(0), ServedAs(Some(SECOND), true, true), Consumer(Some(FIRST), true), [], 2);
            && Ordered(n.conn.out)
            && Next(WINDOW_OF_ONE, true, n, ViewEvent(0, AddView(1, false)))
               == Link(WaitingUnit(0), ServedAs(Some(SECOND), true, true), BOTH_VIEWS, [], 2)
  {
    ViewsChange();
    assert BOTH_VIEWS.stateOn && Consumer(Some(FIRST), true).stateOn && BOTH_VIEWS.status == Live;
    hide ViewAdded, Consumer, BOTH_VIEWS, ServedAs, WaitingUnit;
  }

  lemma ViewLeaves()
    ensures var n := Link(WaitingUnit(0), ServedAs(Some(SECOND), true, true), BOTH_VIEWS, [], 2);
            && Ordered(n.conn.out)
            && Next(WINDOW_OF_ONE, true, n, ViewEvent(0, RemoveView(0)))
               == Link(WaitingUnit(0), ServedAs(Some(SECOND), true, true), Consumer(Some(FIRST), false), [Unsub(0)], 2)
  {
    ViewsChange();
    assert BOTH_VIEWS.stateOn && !Consumer(Some(FIRST), false).stateOn && BOTH_VIEWS.status == Live;
    hide ViewRemoved, Consumer, BOTH_VIEWS, ServedAs, WaitingUnit;
  }

  lemma StateStops()
    ensures var n := Link(WaitingUnit(0), ServedAs(Some(SECOND), true, true), Consumer(Some(FIRST), false), [Unsub(0)], 2);
            && Ordered(n.conn.out)
            && Next(WINDOW_OF_ONE, true, n, Serve)
               == Link(Sent([1, 1], 0), ServedAs(Some(SECOND), false, false), Consumer(Some(FIRST), false), [], 2)
  {
    var o := WaitingUnit(0);
    assert [Unsub(0)][1..] == [];
    assert KeysOfHold(o, 0) == {UnitKey(0)};
    assert [UnitKey(0)][1..] == [];
    assert map[UnitKey(0) := UnitSlot] - {UnitKey(0)} == map[];
    assert DropKeys(o, {UnitKey(0)}, o.order) == DropKeys(TakeOut(o, UnitKey(0)), {UnitKey(0)}, []);
    assert DropHoldState(o, 0) == Sent([1, 1], 0);
  }

  lemma AckSent()
    ensures var n := Link(Sent([1, 1], 0), ServedAs(Some(SECOND), false, false), Consumer(Some(FIRST), false), [], 2);
            && Ordered(n.conn.out)
            && Next(WINDOW_OF_ONE, true, n, SendAck)
               == Link(Sent([1, 1], 0), ServedAs(Some(SECOND), false, false), Consumer(Some(FIRST), false), [Ack(2)], 2)
  {
  }

  lemma AckServed()
    ensures var n := Link(Sent([1, 1], 0), ServedAs(Some(SECOND), false, false), Consumer(Some(FIRST), false), [Ack(2)], 2);
            && Ordered(n.conn.out)
            && Next(WINDOW_OF_ONE, true, n, Serve)
               == Link(Sent([], 2), ServedAs(Some(SECOND), false, false), Consumer(Some(FIRST), false), [], 2)
  {
    assert [Ack(2)][1..] == [];
    var locals := map[0 := ServedAs(Some(SECOND), false, false)];
    AckAnswered(locals);
    hide ServeRequest, ServedAs, Consumer, Sent;
  }

  lemma AckAnswered(locals: map<Hold, Local>)
    ensures Ordered(Sent([1, 1], 0))
    ensures ServeRequest(WINDOW_OF_ONE, Conn(Sent([1, 1], 0), locals, map[]), Ack(2)) == Some(Conn(Sent([], 2), locals, map[]))
  {
    hide Acknowledge, Sum, Ordered;
    SentOrdered([1, 1], 0);
    SentOrdered([], 2);
    AckTaken();
  }

  lemma SentOrdered(unacked: seq<nat>, acked: nat)
    ensures Ordered(Sent(unacked, acked))
  {
  }

  lemma AckTaken()
    ensures Acknowledge(Sent([1, 1], 0), 2) == Sent([], 2)
  {
    assert [1, 1][2..] == [] && [1, 1][..2] == [1, 1] && [1, 1][1..] == [1] && [1][1..] == [];
    assert Sum([1, 1]) == 1 + Sum([1]) && Sum([1]) == 1 + Sum([]);
  }

  /** Some run leads there. */
  ghost predicate Reached(start: Net, n: Net)
    requires Inv(WINDOW_OF_ONE, true, start)
  {
    exists steps :: Run(WINDOW_OF_ONE, true, start, steps) == n
  }

  lemma {:induction false} RunStep(n: Net, steps: seq<Step>, s: Step)
    requires Inv(WINDOW_OF_ONE, true, n)
    ensures Ordered(Run(WINDOW_OF_ONE, true, n, steps).conn.out)
    ensures Run(WINDOW_OF_ONE, true, n, steps + [s]) == Next(WINDOW_OF_ONE, true, Run(WINDOW_OF_ONE, true, n, steps), s)
    decreases |steps|
  {
    NextKeeps(WINDOW_OF_ONE, true, n, s);
    if steps == [] {
      assert ([] + [s])[1..] == [];
      hide Next;
    } else {
      NextKeeps(WINDOW_OF_ONE, true, n, steps[0]);
      assert (steps + [s])[0] == steps[0] && (steps + [s])[1..] == steps[1..] + [s];
      hide Next, Inv;
      RunStep(Next(WINDOW_OF_ONE, true, n, steps[0]), steps[1..], s);
    }
  }

  lemma OneMore(start: Net, n: Net, s: Step) returns (next: Net)
    requires Inv(WINDOW_OF_ONE, true, start) && Reached(start, n) && Ordered(n.conn.out)
    ensures next == Next(WINDOW_OF_ONE, true, n, s) && Reached(start, next)
  {
    hide Inv, Next, Run;
    var steps :| Run(WINDOW_OF_ONE, true, start, steps) == n;
    RunStep(start, steps, s);
    next := Next(WINDOW_OF_ONE, true, n, s);
  }

  /**
   It happens: from a link just opened, with a full window a changed shape waits; the consumer's view that wants state leaves, another
   stays; and when everything is quiet the consumer still has the old shape.
   */
  lemma UnsubLosesShape()
    ensures Opened(true, START) && Inv(WINDOW_OF_ONE, true, START)
    ensures exists steps ::
              var end := Run(WINDOW_OF_ONE, true, START, steps);
              && QuietLink(end) && 0 in end.conn.locals && 0 in end.bindings
              && end.conn.locals[0].shape == Some(SECOND) && Latest(end.bindings[0]) == Some(FIRST)
  {
    StartOpened();
    HelloServed();
    FirstUnit();
    SecondWaits();
    ShapeTaken();
    SnapshotTaken();
    ViewJoins();
    ViewLeaves();
    StateStops();
    AckSent();
    AckServed();
    assert Reached(START, START) by { assert Run(WINDOW_OF_ONE, true, START, []) == START; }
    hide Next, Inv, Opened, Ordered, Reached, ServedAs, Consumer, Taking, WaitingUnit, BOTH_VIEWS;
    var n := OneMore(START, START, Serve);
    n := OneMore(START, n, Provide(Reshape(0, FIRST)));
    n := OneMore(START, n, Provide(Reshape(0, SECOND)));
    n := OneMore(START, n, Deliver);
    n := OneMore(START, n, Deliver);
    n := OneMore(START, n, ViewEvent(0, AddView(1, false)));
    n := OneMore(START, n, ViewEvent(0, RemoveView(0)));
    n := OneMore(START, n, Serve);
    n := OneMore(START, n, SendAck);
    n := OneMore(START, n, Serve);
    EndsStale(START, n);
  }

  lemma EndsStale(start: Net, n: Net)
    requires Inv(WINDOW_OF_ONE, true, start) && Reached(start, n)
    requires n == Link(Sent([], 2), ServedAs(Some(SECOND), false, false), Consumer(Some(FIRST), false), [], 2)
    ensures exists steps ::
              var end := Run(WINDOW_OF_ONE, true, start, steps);
              && QuietLink(end) && 0 in end.conn.locals && 0 in end.bindings
              && end.conn.locals[0].shape == Some(SECOND) && Latest(end.bindings[0]) == Some(FIRST)
  {
    hide Inv, Run;
    var steps :| Run(WINDOW_OF_ONE, true, start, steps) == n;
    assert QuietLink(Run(WINDOW_OF_ONE, true, start, steps));
  }
}
