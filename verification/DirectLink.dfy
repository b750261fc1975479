/**
 A provider and a consumer over one link, as a state machine: frames one way, requests the other, both in
 order.  Over every run, each streamed member converges, a hydrated binding has its members, the accounts
 hold, and no acknowledgement is a violation.
 */
module DirectLink {
  import opened DeltaCodec
  import opened Wire
  import opened Wrappers
  import opened Remote
  import opened Lanes
  import opened FlowControl
  import opened Provider
  import opened Convergence
  import opened ConvergenceSteps
  import opened ProviderBooks

  /** What happens to the objects a provider serves, and other traffic on its link. */
  datatype Act =
    | Change(hold: Hold, m: Name, ops: seq<Op>)
    | SetValue(hold: Hold, m: Name, value: Value)
    | Reshape(hold: Hold, shape: Shape)
    | SendOther(text: string)

  function DoAct(cfg: Config, c: Conn, a: Act): Conn
    requires Ordered(c.out)
  {
    match a
    case Change(h, m, ops) => if WellFormed(ops) then Changed(cfg, c, h, m, ops).conn else c
    case SetValue(h, m, value) => Replaced(cfg, c, h, m, value).conn
    case Reshape(h, shape) => ShapeChanged(cfg, c, h, shape)
    case SendOther(text) => c.(out := Send(cfg, c.out, OtherFrame(text)))
  }

  /** A request is served; none: an acknowledgement out of range, a violation that closes the link. */
  function ServeRequest(cfg: Config, c: Conn, r: Request): Option<Conn>
    requires Ordered(c.out)
  {
    match r
    case Hello(acks) => Some(c.(out := FlowControl.Hello(c.out, acks)))
    case Ack(n) =>
      if !AckAllowed(c.out, n) || n - c.out.acked > |c.out.unacked| then None else Some(OnAck(cfg, c, n))
    case Sub(h) => Some(OnWantState(cfg, c, h, true))
    case Unsub(h) => Some(OnWantState(cfg, c, h, false))
    case Resync(h, m) => Some(OnResync(cfg, c, h, m))
  }

  // ---------------------------------------------------------------- acknowledgements

  /** Acknowledgements on their way only grow, from what is acknowledged to what was taken. */
  predicate AcksFrom(low: nat, requests: seq<Request>, received: nat)
    decreases |requests|
  {
    if requests == [] then low <= received
    else if requests[0].Ack? then low <= requests[0].n && AcksFrom(requests[0].n, requests[1..], received)
    else AcksFrom(low, requests[1..], received)
  }

  /** The peer says hello once, first, and acknowledges only if it said so. */
  ghost predicate Honest(o: Out, requests: seq<Request>, received: nat, acking: bool) {
    && (o.acks.None? ==> requests != [] && requests[0] == Request.Hello(acking))
    && (o.acks.Some? ==> o.acks.value == acking)
    && (forall i :: 0 <= i < |requests| && requests[i].Hello? ==> i == 0 && o.acks.None?)
    && (!acking ==> forall r :: r in requests ==> !r.Ack?)
    && AcksFrom(o.acked, requests, received)
  }

  lemma {:induction false} AcksBound(low: nat, requests: seq<Request>, received: nat)
    requires AcksFrom(low, requests, received)
    ensures low <= received
    decreases |requests|
  {
    if requests != [] {
      AcksBound(if requests[0].Ack? then requests[0].n else low, requests[1..], received);
    }
  }

  lemma {:induction false} AcksAppend(low: nat, requests: seq<Request>, received: nat, more: nat, r: Request)
    requires AcksFrom(low, requests, received) && received <= more && (r.Ack? ==> r.n == more)
    ensures AcksFrom(low, requests + [r], more)
    ensures AcksFrom(low, requests, more)
    decreases |requests|
  {
    if requests != [] {
      assert (requests + [r])[0] == requests[0] && (requests + [r])[1..] == requests[1..] + [r];
      AcksAppend(if requests[0].Ack? then requests[0].n else low, requests[1..], received, more, r);
    } else {
      assert ([] + [r])[1..] == [];
    }
  }

  lemma HonestAppend(o: Out, requests: seq<Request>, received: nat, acking: bool, r: Request)
    requires Honest(o, requests, received, acking) && !r.Hello? && (r.Ack? ==> acking && r.n == received)
    ensures Honest(o, requests + [r], received, acking)
  {
    AcksAppend(o.acked, requests, received, received, r);
  }

  lemma HonestPop(o: Out, next: Out, requests: seq<Request>, received: nat, acking: bool)
    requires Honest(o, requests, received, acking) && requests != []
    requires match requests[0]
             case Hello(acks) => next.acks == (if o.acks.Some? then o.acks else Some(acks)) && next.acked == o.acked
             case Ack(n) => next.acks == o.acks && next.acked == n
             case _ => next.acks == o.acks && next.acked == o.acked
    ensures Honest(next, requests[1..], received, acking)
  {
    forall i | 0 <= i < |requests[1..]| ensures !requests[1..][i].Hello? { assert requests[1..][i] == requests[i + 1]; }
  }

  // ---------------------------------------------------------------- which operations touch the acknowledgements

  predicate SameAcks(o: Out, next: Out) {
    next.acks == o.acks && next.acked == o.acked
  }

  lemma {:induction false} SendAllAcks(cfg: Config, o: Out, frames: seq<Frame>)
    ensures SameAcks(o, SendAll(cfg, o, frames))
    decreases |frames|
  {
    if frames != [] { SendAllAcks(cfg, Send(cfg, o, frames[0]), frames[1..]); }
  }

  lemma SendUnitAcks(cfg: Config, c: Conn, h: Hold)
    ensures SameAcks(c.out, SendUnit(cfg, c, h).out) && SendUnit(cfg, c, h).locals.Keys == c.locals.Keys
    ensures forall x :: x in c.locals ==>
              SendUnit(cfg, c, h).locals[x].contract == c.locals[x].contract
              && SendUnit(cfg, c, h).locals[x].wantsState == c.locals[x].wantsState
  {
    if h in c.locals && c.locals[h].shape.Some? {
      var l := c.locals[h];
      SendAllAcks(cfg, Remove(c.out, UnitKey(h)),
                  [ShapeFrame(h, l.shape.value, Listed(l))] + Snapshots(c, h, Listed(l)));
    }
  }

  /** What no operation changes: which holds there are, and their contracts. */
  predicate SameContracts(c: Conn, next: Conn) {
    && next.locals.Keys == c.locals.Keys
    && (forall x :: x in c.locals ==> next.locals[x].contract == c.locals[x].contract)
  }

  /** Nor, but for a request, whether their state is wanted. */
  predicate SameHolds(c: Conn, next: Conn) {
    && SameContracts(c, next)
    && (forall x :: x in c.locals ==> next.locals[x].wantsState == c.locals[x].wantsState)
  }

  lemma {:induction false} FlushAcks(cfg: Config, c: Conn)
    requires Ordered(c.out)
    ensures SameAcks(c.out, Flush(cfg, c).out) && SameHolds(c, Flush(cfg, c))
    decreases |c.out.order|
  {
    if c.out.order != [] && !WindowFull(cfg, c.out) {
      FlushFirstOrdered(cfg, c);
      OldestKind(c.out);
      FlushFirstAcks(cfg, c);
      FlushAcks(cfg, FlushFirst(cfg, c));
    }
  }

  lemma OldestKind(o: Out)
    requires Ordered(o) && o.order != []
    ensures o.order[0] in o.slots && (o.order[0].StreamKey? ==> o.slots[o.order[0]].StreamSlot?)
  {
  }

  lemma FlushFirstAcks(cfg: Config, c: Conn)
    requires c.out.order != [] && c.out.order[0] in c.out.slots
    requires c.out.order[0].StreamKey? ==> c.out.slots[c.out.order[0]].StreamSlot?
    ensures SameAcks(c.out, FlushFirst(cfg, c).out) && SameHolds(c, FlushFirst(cfg, c))
  {
    var key := c.out.order[0];
    var c0 := c.(out := TakeOut(c.out, key));
    match key
    case UnitKey(h) => SendUnitAcks(cfg, c0, h);
    case StreamKey(h, n) =>
      if !c.out.slots[key].lazy { SendAllAcks(cfg, c0.out, SlotFrames(key, c.out.slots[key])); }
  }

  lemma {:induction false} DropKeysAcks(o: Out, doomed: set<Key>, keys: seq<Key>)
    ensures SameAcks(o, DropKeys(o, doomed, keys))
    decreases |keys|
  {
    if keys != [] { DropKeysAcks(if keys[0] in doomed then TakeOut(o, keys[0]) else o, doomed, keys[1..]); }
  }

  lemma EndFeedsAcks(cfg: Config, c: Conn, h: Hold, gone: set<Name>)
    requires h in c.locals && Ordered(c.out)
    ensures SameAcks(c.out, EndFeeds(c, h, gone).out) && SameHolds(c, EndFeeds(c, h, gone))
    ensures Ordered(EndFeeds(c, h, gone).out)
  {
    var doomed := set n | n in gone :: StreamKey(h, n);
    DropKeysAcks(c.out, doomed, c.out.order);
    DropKeysKeeps(cfg, c.out, doomed, c.out.order);
  }

  lemma QueueUnitAcks(cfg: Config, c: Conn, h: Hold)
    requires Ordered(c.out)
    ensures SameAcks(c.out, QueueUnit(cfg, c, h).out) && SameHolds(c, QueueUnit(cfg, c, h))
  {
    PutOrdered(c.out, UnitKey(h), UnitSlot);
    FlushAcks(cfg, c.(out := if UnitKey(h) in c.out.slots then c.out else Put(c.out, UnitKey(h), UnitSlot)));
  }

  lemma UnitAcks(cfg: Config, c: Conn, h: Hold)
    requires Ordered(c.out)
    ensures SameAcks(c.out, Unit(cfg, c, h).out) && SameHolds(c, Unit(cfg, c, h))
  {
    if h in c.locals && c.locals[h].shape.Some? {
      var l := c.locals[h];
      EndFeedsAcks(cfg, c, h, l.feeds.Keys - Fed(l));
      var c1 := EndFeeds(c, h, l.feeds.Keys - Fed(l));
      if c1.locals[h].feeds == map[] && !(l.again && !l.unitSent) {
        SendUnitAcks(cfg, c1, h);
      } else {
        QueueUnitAcks(cfg, c1, h);
      }
    }
  }

  lemma {:induction false} MakeRoomAcks(cfg: Config, o: Out, size: nat, current: Key, keys: seq<Key>)
    requires current in o.slots && o.slots[current].StreamSlot?
    ensures SameAcks(o, MakeRoom(cfg, o, size, current, keys).out)
    decreases |keys|
  {
    if o.pendingBytes + size <= cfg.cap || keys == [] {
    } else {
      var x := keys[0];
      if x != current && x in o.slots && o.slots[x].StreamSlot? && o.slots[x].size > 0 {
        MakeRoomAcks(cfg, Drop(o, x).out, size, current, keys[1..]);
      } else {
        MakeRoomAcks(cfg, o, size, current, keys[1..]);
      }
    }
  }

  lemma SendStateAcks(cfg: Config, o: Out, f: Frame, relayed: bool)
    requires f.FullFrame? || f.OpsFrame?
    ensures SameAcks(o, SendState(cfg, o, f, relayed).out)
  {
    var key := StreamKey(f.hold, f.m);
    if key in o.slots || WindowFull(cfg, o) {
      var o1 := if key in o.slots then o else Put(o, key, EMPTY_SLOT.(relayed := relayed));
      if f.OpsFrame? && o1.slots[key].StreamSlot? && !o1.slots[key].lazy {
        MakeRoomAcks(cfg, o1, cfg.opsSize(f.ops), key, o1.order);
      }
    }
  }

  lemma FedAcks(cfg: Config, c: Conn, h: Hold, m: Name, e: Encoder, f: Frame, values: map<(Hold, Name), Value>)
    requires h in c.locals && (f.FullFrame? || f.OpsFrame?)
    ensures var next := Conn(SendState(cfg, c.out, f, false).out,
                             c.locals[h := c.locals[h].(feeds := c.locals[h].feeds[m := e])], values);
            SameAcks(c.out, next.out) && SameHolds(c, next)
  {
    SendStateAcks(cfg, c.out, f, false);
  }

  lemma DoActAcks(cfg: Config, c: Conn, a: Act)
    requires Ordered(c.out)
    ensures SameAcks(c.out, DoAct(cfg, c, a).out) && SameHolds(c, DoAct(cfg, c, a))
  {
    match a
    case Change(h, m, ops) =>
      if h in c.locals && m in c.locals[h].feeds {
        var sent := Encode(c.locals[h].feeds[m], ops);
        FedAcks(cfg, c, h, m, sent.encoder, OpsFrame(h, m, sent.wire), c.values[(h, m) := ApplyAll(ValueOf(c, h, m), ops)]);
      }
    case SetValue(h, m, value) =>
      if h in c.locals { FedAcks(cfg, c, h, m, FRESH_ENCODER, FullFrame(h, m, value), c.values[(h, m) := value]); }
    case Reshape(h, shape) =>
      if h in c.locals { UnitAcks(cfg, c.(locals := c.locals[h := c.locals[h].(shape := Some(shape))]), h); }
    case SendOther(text) =>
  }

  lemma ServeRequestAcks(cfg: Config, c: Conn, r: Request)
    requires Ordered(c.out) && ServeRequest(cfg, c, r).Some?
    ensures var next := ServeRequest(cfg, c, r).value;
            && SameContracts(c, next)
            && (forall x :: x in c.locals ==>
                  next.locals[x].wantsState
                  == if r == Sub(x) then true else if r == Unsub(x) then false else c.locals[x].wantsState)
            && match r
               case Hello(acks) =>
                 next.out.acks == (if c.out.acks.Some? then c.out.acks else Some(acks)) && next.out.acked == c.out.acked
               case Ack(n) => next.out.acks == c.out.acks && next.out.acked == n
               case _ => next.out.acks == c.out.acks && next.out.acked == c.out.acked
  {
    match r
    case Hello(acks) =>
    case Ack(n) => FlushAcks(cfg, c.(out := Acknowledge(c.out, n)));
    case Sub(h) =>
      if h in c.locals { UnitAcks(cfg, c.(locals := c.locals[h := c.locals[h].(wantsState := true)]), h); }
    case Unsub(h) => DropKeysAcks(c.out, KeysOfHold(c.out, h), c.out.order);
    case Resync(h, m) =>
      LaziedKeeps(cfg, c.out, StreamKey(h, m));
      FlushAcks(cfg, c.(out := Lazied(c.out, StreamKey(h, m))));
  }

  // ---------------------------------------------------------------- the link

  datatype Net = Net(conn: Conn, requests: seq<Request>, received: nat, bindings: map<Hold, Binding>, broken: bool)

  datatype Step =
    | Provide(act: Act)
    | Serve
    | Deliver
    | SendAck
    | ViewEvent(hold: Hold, event: Event)

  /** The request that goes out if the binding's wish differs from before. */
  function Wish(h: Hold, before: Binding, after: Binding): seq<Request> {
    if before.stateOn == after.stateOn then [] else [if after.stateOn then Sub(h) else Unsub(h)]
  }

  function Receives(bindings: map<Hold, Binding>, f: Frame): map<Hold, Binding> {
    map h | h in bindings :: Receive(bindings[h], h, f)
  }

  function Next(cfg: Config, acking: bool, n: Net, s: Step): Net
    requires Ordered(n.conn.out)
  {
    match s
    case Provide(act) => n.(conn := DoAct(cfg, n.conn, act))
    case Serve =>
      if n.requests == [] then n
      else
        var served := ServeRequest(cfg, n.conn, n.requests[0]);
        if served.None? then n.(broken := true) else n.(conn := served.value, requests := n.requests[1..])
    case Deliver =>
      if n.conn.out.wire == [] then n
      else
        n.(conn := n.conn.(out := n.conn.out.(wire := n.conn.out.wire[1..])), received := n.received + 1,
           bindings := Receives(n.bindings, n.conn.out.wire[0]))
    case SendAck => if acking then n.(requests := n.requests + [Ack(n.received)]) else n
    case ViewEvent(h, e) =>
      if h !in n.bindings || !(e.AddView? || e.RemoveView?) then n
      else
        var b := Handle(n.bindings[h], h, e);
        n.(bindings := n.bindings[h := b], requests := n.requests + Wish(h, n.bindings[h], b))
  }

  function LaneAt(bindings: map<Hold, Binding>, h: Hold, m: Name): Lane {
    if h in bindings then LaneOf(bindings[h], m) else Lane(false, None)
  }

  ghost predicate BindingsOk(c: Conn, bindings: map<Hold, Binding>) {
    && (forall h :: h in bindings ==> Consistent(bindings[h]) && !bindings[h].status.Ended?)
    && (forall h :: h in c.locals ==> h in bindings && bindings[h].contract == c.locals[h].contract)
  }

  /** Unless a stop is on its way, every streamed member converges. */
  ghost predicate Inv(cfg: Config, acking: bool, n: Net) {
    && Serving(n.conn) && Books(cfg, n.conn.out, n.received)
    && BindingsOk(n.conn, n.bindings)
    && Honest(n.conn.out, n.requests, n.received, acking)
    && (forall h, m :: Unsub(h) !in n.requests ==> Delivers(n.conn, h, m, Stream(false, LaneAt(n.bindings, h, m)), false))
    && !n.broken
  }

  lemma AckNeverViolates(cfg: Config, acking: bool, n: Net)
    requires Inv(cfg, acking, n) && n.requests != []
    ensures ServeRequest(cfg, n.conn, n.requests[0]).Some?
  {
    if n.requests[0].Ack? {
      AcksBound(n.requests[0].n, n.requests[1..], n.received);
    }
  }

  lemma DoActKeeps(cfg: Config, c: Conn, a: Act, h: Hold, m: Name, start: Stream, resync: bool)
    requires Serving(c) && Delivers(c, h, m, start, resync)
    ensures Serving(DoAct(cfg, c, a)) && Delivers(DoAct(cfg, c, a), h, m, start, resync)
  {
    match a
    case Change(x, n, ops) => if WellFormed(ops) { ChangedKeeps(cfg, c, x, n, ops, h, m, start, resync); }
    case SetValue(x, n, value) => ReplacedKeeps(cfg, c, x, n, value, h, m, start, resync);
    case Reshape(x, shape) => ShapeChangedKeeps(cfg, c, x, shape, h, m, start, resync);
    case SendOther(text) =>
      ServingWith(c, Send(cfg, c.out, OtherFrame(text)), c.locals, c.values);
      if h in c.locals {
        var k := c.locals[h].contract;
        FlowConcat(k, start, h, m, c.out.wire, [OtherFrame(text)]);
        FlowOne(k, FlowAll(k, start, h, m, c.out.wire), h, m, OtherFrame(text));
      }
  }

  lemma DoActOrderly(cfg: Config, c: Conn, a: Act, received: nat, hold: Hold, shaped: bool)
    requires Serving(c) && Orderly(cfg, c, received, hold, shaped) && (shaped || hold in c.locals)
    ensures Orderly(cfg, DoAct(cfg, c, a), received, hold, shaped)
  {
    match a
    case Change(x, n, ops) => if WellFormed(ops) { ChangedOrderly(cfg, c, x, n, ops, received, hold, shaped); }
    case SetValue(x, n, value) => ReplacedOrderly(cfg, c, x, n, value, received, hold, shaped);
    case Reshape(x, shape) => ShapeChangedOrderly(cfg, c, x, shape, received, hold, shaped);
    case SendOther(text) =>
      Elsewhere([OtherFrame(text)], hold);
      assert SendAll(cfg, c.out, [OtherFrame(text)]) == Send(cfg, c.out, OtherFrame(text)) by {
        assert [OtherFrame(text)][1..] == [];
      }
      SendAllOrderly(cfg, c, [OtherFrame(text)], received, hold, shaped);
  }

  lemma ServeKeeps(cfg: Config, c: Conn, r: Request, h: Hold, m: Name, start: Stream, before: bool, resync: bool)
    requires Serving(c) && ServeRequest(cfg, c, r).Some?
    requires r != Unsub(h) ==> Delivers(c, h, m, start, before)
    requires before ==> resync || r == Request.Resync(h, m)
    ensures Serving(ServeRequest(cfg, c, r).value)
    ensures Delivers(ServeRequest(cfg, c, r).value, h, m, start, resync)
  {
    if r == Unsub(h) {
      StopServing(cfg, c, h);
    } else {
      match r
      case Hello(acks) => ServingWith(c, FlowControl.Hello(c.out, acks), c.locals, c.values);
      case Ack(n) => OnAckKeeps(cfg, c, n, h, m, start, resync);
      case Sub(x) => OnWantStateKeeps(cfg, c, x, true, h, m, start, resync);
      case Unsub(x) => OnWantStateKeeps(cfg, c, x, false, h, m, start, resync);
      case Resync(x, n) => OnResyncKeeps(cfg, c, x, n, h, m, start, before, resync);
    }
  }

  lemma ServeOrderly(cfg: Config, c: Conn, r: Request, received: nat, hold: Hold, shaped: bool)
    requires Serving(c) && Orderly(cfg, c, received, hold, shaped) && (shaped || hold in c.locals)
    requires ServeRequest(cfg, c, r).Some?
    ensures Orderly(cfg, ServeRequest(cfg, c, r).value, received, hold, shaped)
  {
    match r
    case Hello(acks) =>
    case Ack(n) => OnAckOrderly(cfg, c, n, received, hold, shaped);
    case Sub(x) => OnWantStateOrderly(cfg, c, x, true, received, hold, shaped);
    case Unsub(x) => OnWantStateOrderly(cfg, c, x, false, received, hold, shaped);
    case Resync(x, n) => OnResyncOrderly(cfg, c, x, n, received, hold, shaped);
  }

  /** Taking a frame off the wire: what the stream stood at moves over it. */
  lemma PopDelivers(c: Conn, hold: Hold, m: Name, start: Stream, next: Stream, resync: bool)
    requires Delivers(c, hold, m, start, resync) && c.out.wire != [] && Sound(start.lane) && Sound(next.lane)
    requires hold in c.locals ==> BelowStream(Flow(c.locals[hold].contract, start, hold, m, c.out.wire[0]), next)
    ensures Delivers(c.(out := c.out.(wire := c.out.wire[1..])), hold, m, next, resync)
  {
    if hold in c.locals && m in c.locals[hold].feeds {
      var l := c.locals[hold];
      var f := c.out.wire[0];
      var mid := Flow(l.contract, start, hold, m, f);
      FlowMonotone(l.contract, start, start, hold, m, f);
      FlowAllMonotone(l.contract, mid, next, hold, m, c.out.wire[1..]);
      SettlesMonotone(l.contract, FlowAll(l.contract, mid, hold, m, c.out.wire[1..]),
                      FlowAll(l.contract, next, hold, m, c.out.wire[1..]), hold, m,
                      SlotOf(c.out, StreamKey(hold, m)), ValueOf(c, hold, m), l.feeds[m], resync);
    }
  }

  lemma SettlesMonotone(k: Contract, s: Stream, t: Stream, hold: Hold, m: Name, slot: Option<Slot>, v: Value, e: Encoder,
                        resync: bool)
    requires Settles(k, s, hold, m, slot, v, e, resync) && BelowStream(s, t) && Sound(s.lane) && Sound(t.lane)
    ensures Settles(k, t, hold, m, slot, v, e, resync)
  {
    if slot.Some? && slot.value.StreamSlot? {
      FlowAllMonotone(k, s, t, hold, m, SlotFrames(StreamKey(hold, m), slot.value));
    }
  }

  lemma PopServing(c: Conn)
    requires Serving(c) && c.out.wire != []
    ensures Serving(c.(out := c.out.(wire := c.out.wire[1..])))
  {
  }

  lemma ReceivesOk(c: Conn, bindings: map<Hold, Binding>, f: Frame)
    requires BindingsOk(c, bindings)
    ensures BindingsOk(c, Receives(bindings, f))
  {
    forall h | h in bindings
      ensures Consistent(Receive(bindings[h], h, f)) && !Receive(bindings[h], h, f).status.Ended?
      ensures Receive(bindings[h], h, f).contract == bindings[h].contract
    {
      ReceiveConsistent(bindings[h], h, f);
      ReceiveKeepsKind(bindings[h], h, f);
    }
  }

  lemma ProvideKeeps(cfg: Config, acking: bool, n: Net, act: Act)
    requires Inv(cfg, acking, n)
    ensures Inv(cfg, acking, Next(cfg, acking, n, Provide(act)))
  {
    var c := DoAct(cfg, n.conn, act);
    DoActAcks(cfg, n.conn, act);
    DoActOrderly(cfg, n.conn, act, n.received, 0, true);
    assert Serving(c) by { DoActServing(cfg, n.conn, act); }
    forall h, m | Unsub(h) !in n.requests
      ensures Delivers(c, h, m, Stream(false, LaneAt(n.bindings, h, m)), false)
    {
      DoActKeeps(cfg, n.conn, act, h, m, Stream(false, LaneAt(n.bindings, h, m)), false);
    }
  }

  /** For a hold that is not served there is nothing to deliver. */
  lemma DoActServing(cfg: Config, c: Conn, act: Act)
    requires Serving(c)
    ensures Serving(DoAct(cfg, c, act))
  {
    var h := Unserved(c);
    DoActKeeps(cfg, c, act, h, "", Stream(false, Lane(false, None)), false);
  }

  lemma {:induction false} Unserved(c: Conn) returns (h: Hold)
    ensures h !in c.locals
  {
    h := Beyond(c.locals.Keys);
  }

  lemma {:induction false} Beyond(s: set<nat>) returns (h: nat)
    ensures forall x :: x in s ==> x < h
    decreases |s|
  {
    if s == {} {
      h := 0;
    } else {
      var x :| x in s;
      var y := Beyond(s - {x});
      h := if x < y then y else x + 1;
      assert forall z :: z in s ==> z == x || z in s - {x};
    }
  }

  lemma ServeStepKeeps(cfg: Config, acking: bool, n: Net)
    requires Inv(cfg, acking, n)
    ensures Inv(cfg, acking, Next(cfg, acking, n, Serve))
  {
    if n.requests != [] {
      var r := n.requests[0];
      AckNeverViolates(cfg, acking, n);
      var c := ServeRequest(cfg, n.conn, r).value;
      ServeRequestAcks(cfg, n.conn, r);
      ServeOrderly(cfg, n.conn, r, n.received, 0, true);
      HonestPop(n.conn.out, c.out, n.requests, n.received, acking);
      var x := Unserved(n.conn);
      ServeKeeps(cfg, n.conn, r, x, "", Stream(false, Lane(false, None)), false, false);
      forall h, m | Unsub(h) !in n.requests[1..]
        ensures Delivers(c, h, m, Stream(false, LaneAt(n.bindings, h, m)), false)
      {
        assert Unsub(h) in n.requests ==> r == Unsub(h) by {
          assert n.requests == [r] + n.requests[1..];
        }
        ServeKeeps(cfg, n.conn, r, h, m, Stream(false, LaneAt(n.bindings, h, m)), false, false);
      }
    }
  }

  lemma PopBooks(cfg: Config, o: Out, requests: seq<Request>, received: nat, acking: bool)
    requires Books(cfg, o, received) && Honest(o, requests, received, acking) && o.wire != []
    ensures Books(cfg, o.(wire := o.wire[1..]), received + 1)
    ensures Honest(o.(wire := o.wire[1..]), requests, received + 1, acking)
  {
    AcksAppend(o.acked, requests, received, received + 1, Sub(0));
  }

  lemma DeliverOne(n: Net, h: Hold, m: Name)
    requires n.conn.out.wire != [] && BindingsOk(n.conn, n.bindings)
    requires Delivers(n.conn, h, m, Stream(false, LaneAt(n.bindings, h, m)), false)
    ensures var bindings := Receives(n.bindings, n.conn.out.wire[0]);
            Delivers(n.conn.(out := n.conn.out.(wire := n.conn.out.wire[1..])), h, m,
                     Stream(false, LaneAt(bindings, h, m)), false)
  {
    var f := n.conn.out.wire[0];
    if h in n.conn.locals {
      var b := n.bindings[h];
      LaneReceives(b, h, m, f);
      PopDelivers(n.conn, h, m, Stream(false, LaneOf(b, m)), Stream(false, LaneOf(Receive(b, h, f), m)), false);
    }
  }

  lemma DeliverKeeps(cfg: Config, acking: bool, n: Net)
    requires Inv(cfg, acking, n)
    ensures Inv(cfg, acking, Next(cfg, acking, n, Deliver))
  {
    hide Delivers, LaneAt, Receives;
    if n.conn.out.wire != [] {
      var next := n.(conn := n.conn.(out := n.conn.out.(wire := n.conn.out.wire[1..])), received := n.received + 1,
                     bindings := Receives(n.bindings, n.conn.out.wire[0]));
      assert Next(cfg, acking, n, Deliver) == next;
      ReceivesOk(n.conn, n.bindings, n.conn.out.wire[0]);
      PopServing(n.conn);
      PopBooks(cfg, n.conn.out, n.requests, n.received, acking);
      forall h, m | Unsub(h) !in n.requests
        ensures Delivers(next.conn, h, m, Stream(false, LaneAt(next.bindings, h, m)), false)
      {
        DeliverOne(n, h, m);
      }
    }
    hide Next;
  }

  /** A view change that does not stop state leaves the lanes as they are. */
  lemma ViewLane(b: Binding, h: Hold, e: Event, m: Name)
    requires (e.AddView? || e.RemoveView?) && Consistent(b) && !b.status.Ended?
    requires Wish(h, b, Handle(b, h, e)) != [Unsub(h)]
    ensures LaneOf(Handle(b, h, e), m) == LaneOf(b, m)
  {
  }

  lemma WishIsHonest(o: Out, requests: seq<Request>, received: nat, acking: bool, h: Hold, b: Binding, after: Binding)
    requires Honest(o, requests, received, acking)
    ensures Honest(o, requests + Wish(h, b, after), received, acking)
    ensures forall q :: q in Wish(h, b, after) ==> !q.Resync?
  {
    var w := Wish(h, b, after);
    if w != [] {
      HonestAppend(o, requests, received, acking, w[0]);
      assert w == [w[0]];
    } else {
      assert requests + w == requests;
    }
  }

  lemma ViewKeepsKind(b: Binding, h: Hold, e: Event)
    requires (e.AddView? || e.RemoveView?) && !b.status.Ended?
    ensures Handle(b, h, e).contract == b.contract && !Handle(b, h, e).status.Ended?
  {
  }

  lemma ViewBindings(c: Conn, bindings: map<Hold, Binding>, h: Hold, e: Event)
    requires BindingsOk(c, bindings) && h in bindings && (e.AddView? || e.RemoveView?)
    ensures BindingsOk(c, bindings[h := Handle(bindings[h], h, e)])
  {
    HandleConsistent(bindings[h], h, e);
    ViewKeepsKind(bindings[h], h, e);
  }

  /** Where no stop is asked for, a view change leaves every lane as it is. */
  lemma ViewLaneAt(bindings: map<Hold, Binding>, requests: seq<Request>, h: Hold, e: Event, x: Hold, m: Name)
    requires h in bindings && Consistent(bindings[h]) && !bindings[h].status.Ended? && (e.AddView? || e.RemoveView?)
    requires Unsub(x) !in requests + Wish(h, bindings[h], Handle(bindings[h], h, e))
    ensures Unsub(x) !in requests
    ensures LaneAt(bindings[h := Handle(bindings[h], h, e)], x, m) == LaneAt(bindings, x, m)
  {
    var w := Wish(h, bindings[h], Handle(bindings[h], h, e));
    assert Unsub(x) !in requests && Unsub(x) !in w;
    if x == h {
      assert w != [Unsub(h)] by { assert Unsub(h) in [Unsub(h)]; }
      ViewLane(bindings[h], h, e, m);
    }
  }

  lemma ViewKeeps(cfg: Config, acking: bool, n: Net, h: Hold, e: Event)
    requires Inv(cfg, acking, n)
    ensures Inv(cfg, acking, Next(cfg, acking, n, ViewEvent(h, e)))
  {
    if h in n.bindings && (e.AddView? || e.RemoveView?) {
      hide Handle, Delivers, Honest, Serving, Books, Consistent;
      var next := Next(cfg, acking, n, ViewEvent(h, e));
      ViewBindings(n.conn, n.bindings, h, e);
      WishIsHonest(n.conn.out, n.requests, n.received, acking, h, n.bindings[h], Handle(n.bindings[h], h, e));
      forall x, m | Unsub(x) !in next.requests
        ensures Delivers(next.conn, x, m, Stream(false, LaneAt(next.bindings, x, m)), false)
      {
        ViewLaneAt(n.bindings, n.requests, h, e, x, m);
      }
    }
  }

  lemma NextKeeps(cfg: Config, acking: bool, n: Net, s: Step)
    requires Inv(cfg, acking, n)
    ensures Inv(cfg, acking, Next(cfg, acking, n, s))
  {
    match s
    case Provide(act) => ProvideKeeps(cfg, acking, n, act);
    case Serve => ServeStepKeeps(cfg, acking, n);
    case Deliver => DeliverKeeps(cfg, acking, n);
    case SendAck =>
      if acking {
        HonestAppend(n.conn.out, n.requests, n.received, acking, Ack(n.received));
        forall h | Unsub(h) in n.requests ensures Unsub(h) in n.requests + [Ack(n.received)] {}
      }
    case ViewEvent(h, e) => ViewKeeps(cfg, acking, n, h, e);
  }

  /** Every state of every run. */
  ghost function Run(cfg: Config, acking: bool, n: Net, steps: seq<Step>): Net
    requires Inv(cfg, acking, n)
    ensures Inv(cfg, acking, Run(cfg, acking, n, steps))
    decreases |steps|
  {
    if steps == [] then n
    else
      NextKeeps(cfg, acking, n, steps[0]);
      Run(cfg, acking, Next(cfg, acking, n, steps[0]), steps[1..])
  }

  /** A link just opened: holds as served, nothing sent or waiting, any consistent bindings (also from an earlier link). */
  ghost predicate Opened(acking: bool, n: Net) {
    && n.conn.out == Out(None, 0, 0, [], 0, map[], [], 0, [])
    && (forall h :: h in n.conn.locals ==> n.conn.locals[h].feeds == map[] && !n.conn.locals[h].unitSent)
    && BindingsOk(n.conn, n.bindings)
    && n.requests == [Request.Hello(acking)] && n.received == 0 && !n.broken
  }

  lemma OpenedInv(cfg: Config, acking: bool, n: Net)
    requires Opened(acking, n)
    ensures Inv(cfg, acking, n)
  {
    assert AcksFrom(0, n.requests, 0) by { assert n.requests[1..] == []; }
  }

  /**
   One-hop convergence.  From a freshly opened link, whatever changes, view changes, acknowledgements, window
   and cap: unless a stop is on its way, a streamed member's replica, followed by the frames on the wire and
   by what waits (or by the current value, if a reset waits), is the provider's value, and its decoder is in
   step with the provider's encoder.
   */
  lemma OneHopConvergence(cfg: Config, acking: bool, n: Net, steps: seq<Step>, h: Hold, m: Name)
    requires Opened(acking, n)
    ensures Inv(cfg, acking, n)
    ensures var end := Run(cfg, acking, n, steps);
            && !end.broken
            && end.conn.out.pendingBytes <= cfg.cap
            && (h in end.bindings && end.bindings[h].hydrated ==>
                  end.bindings[h].shape.Some? && Wanted(end.bindings[h].contract, end.bindings[h].shape.value)
                                                 <= end.bindings[h].members.Keys)
            && (h in end.conn.locals && m in end.conn.locals[h].feeds && Unsub(h) !in end.requests ==>
                  var l := end.conn.locals[h];
                  var flown := FlowAll(l.contract, Stream(false, LaneOf(end.bindings[h], m)), h, m, end.conn.out.wire);
                  var slot := SlotOf(end.conn.out, StreamKey(h, m));
                  var last := Last(l.contract, flown, h, m, slot, ValueOf(end.conn, h, m));
                  && last.lane.replica.Some?
                  && last.lane.replica.value.value == ValueOf(end.conn, h, m)
                  && (!IsLazy(slot) ==> Synced(l.feeds[m], last.lane.replica.value.paths)))
  {
    OpenedInv(cfg, acking, n);
    var end := Run(cfg, acking, n, steps);
    if h in end.conn.locals && m in end.conn.locals[h].feeds && Unsub(h) !in end.requests {
      assert Delivers(end.conn, h, m, Stream(false, LaneAt(end.bindings, h, m)), false);
      DeliversAtLast(end.conn, h, m, Stream(false, LaneOf(end.bindings[h], m)), false);
    }
  }

  lemma DeliversAtLast(c: Conn, h: Hold, m: Name, start: Stream, resync: bool)
    requires h in c.locals && m in c.locals[h].feeds && Delivers(c, h, m, start, resync)
    ensures var l := c.locals[h];
            var flown := FlowAll(l.contract, start, h, m, c.out.wire);
            var slot := SlotOf(c.out, StreamKey(h, m));
            var last := Last(l.contract, flown, h, m, slot, ValueOf(c, h, m));
            && flown.lane.open
            && (last.awaiting ==> resync)
            && (!last.awaiting ==> last.lane.replica.Some? && last.lane.replica.value.value == ValueOf(c, h, m))
            && (!last.awaiting && !IsLazy(slot) ==> Synced(l.feeds[m], last.lane.replica.value.paths))
  {
    var l := c.locals[h];
    SettlesAtLast(l.contract, FlowAll(l.contract, start, h, m, c.out.wire), h, m, SlotOf(c.out, StreamKey(h, m)),
                  ValueOf(c, h, m), l.feeds[m], resync);
  }

  lemma {:induction false} NeverAwaits(c: Contract, s: Stream, hold: Hold, m: Name, frames: seq<Frame>)
    ensures !s.awaiting ==> !FlowAll(c, s, hold, m, frames).awaiting
    decreases |frames|
  {
    if frames != [] { NeverAwaits(c, Flow(c, s, hold, m, frames[0]), hold, m, frames[1..]); }
  }

  /**
   When everything sent has arrived and nothing waits, the consumer holds the provider's value, applied or with the
   shape it waits for, and once the binding is hydrated and waits for no shape a reader gets it.
   */
  lemma QuietMeansEqual(cfg: Config, acking: bool, n: Net, h: Hold, m: Name)
    requires Inv(cfg, acking, n) && n.conn.out.wire == [] && n.conn.out.slots == map[] && Unsub(h) !in n.requests
    requires h in n.conn.locals && m in n.conn.locals[h].feeds
    ensures Target(n.bindings[h], m).Some? && Target(n.bindings[h], m).value.value == ValueOf(n.conn, h, m)
    ensures n.bindings[h].hydrated && n.bindings[h].pending.None? ==> ReadOf(n.bindings[h], m) == Some(ValueOf(n.conn, h, m))
  {
    assert Delivers(n.conn, h, m, Stream(false, LaneAt(n.bindings, h, m)), false);
  }
}
