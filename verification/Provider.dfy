/**
 The provider's end of a link: holds served here, the stream of each state member the consumer has, and what
 each operation sends or keeps waiting.
 */
module Provider {
  import opened DeltaCodec
  import opened Wire
  import opened Wrappers
  import opened FlowControl

  /** A hold served here; `feeds` are the members whose snapshot was sent, with their encoders. */
  datatype Local = Local(
    contract: Contract,
    shape: Option<Shape>,
    wantsState: bool,
    again: bool,
    unitSent: bool,
    feeds: map<Name, Encoder>)

  datatype Conn = Conn(out: Out, locals: map<Hold, Local>, values: map<(Hold, Name), Value>)

  function ValueOf(c: Conn, hold: Hold, m: Name): Value {
    if (hold, m) in c.values then c.values[(hold, m)] else Value("", [])
  }

  /** The state members of the shape, in its order. */
  function Pick(names: seq<Name>, state: set<Name>, except: set<Name>): seq<Name>
    decreases |names|
  {
    if names == [] then []
    else
      var rest := Pick(names[1..], state, except);
      if names[0] in state && names[0] !in except then [names[0]] + rest else rest
  }

  /** What a unit lists: members of the shape without a stream, if state is wanted. */
  function Listed(l: Local): seq<Name> {
    if l.wantsState && l.shape.Some? then
      Pick(l.shape.value.members, VariantState(l.contract, l.shape.value.variant), l.feeds.Keys)
    else []
  }

  function Fed(l: Local): set<Name> {
    if l.wantsState && l.shape.Some? then Wanted(l.contract, l.shape.value) else {}
  }

  function Snapshots(c: Conn, hold: Hold, names: seq<Name>): seq<Frame>
    decreases |names|
  {
    if names == [] then []
    else [FullFrame(hold, names[0], ValueOf(c, hold, names[0]))] + Snapshots(c, hold, names[1..])
  }

  /** A unit on the wire: the shape, then a snapshot for each member that had no stream. */
  function SendUnit(cfg: Config, c: Conn, hold: Hold): Conn {
    var c0 := c.(out := Remove(c.out, UnitKey(hold)));
    if hold !in c.locals || c.locals[hold].shape.None? then c0
    else
      var l := c.locals[hold];
      var listed := Listed(l);
      var feeds := l.feeds + (map n | n in listed :: FRESH_ENCODER);
      var frames := [ShapeFrame(hold, l.shape.value, listed)] + Snapshots(c, hold, listed);
      Conn(SendAll(cfg, c0.out, frames), c.locals[hold := l.(unitSent := true, feeds := feeds)], c.values)
  }

  /** `m` starts a new stream with its value, unless nobody is fed it. */
  function Resend(cfg: Config, c: Conn, hold: Hold, m: Name): Conn {
    if hold !in c.locals || m !in c.locals[hold].feeds then c
    else
      var l := c.locals[hold];
      Conn(Send(cfg, c.out, FullFrame(hold, m, ValueOf(c, hold, m))),
           c.locals[hold := l.(feeds := l.feeds[m := FRESH_ENCODER])], c.values)
  }

  /** The oldest slot leaves: a unit or a reset is built, or what waits is sent. */
  function FlushFirst(cfg: Config, c: Conn): Conn
    requires c.out.order != [] && c.out.order[0] in c.out.slots
    requires c.out.order[0].StreamKey? ==> c.out.slots[c.out.order[0]].StreamSlot?
  {
    var key := c.out.order[0];
    var slot := c.out.slots[key];
    var o := TakeOut(c.out, key);
    match key
    case UnitKey(hold) => SendUnit(cfg, c.(out := o), hold)
    case StreamKey(hold, m) =>
      if slot.lazy then (if slot.relayed then c.(out := o) else Resend(cfg, c.(out := o), hold, m))
      else c.(out := SendAll(cfg, o, SlotFrames(key, slot)))
  }

  /** From the front of the queue, one slot at a time, until the window closes. */
  function Flush(cfg: Config, c: Conn): Conn
    requires Ordered(c.out)
    decreases |c.out.order|
  {
    if c.out.order == [] || WindowFull(cfg, c.out) then c
    else
      FlushFirstOrdered(cfg, c);
      Flush(cfg, FlushFirst(cfg, c))
  }

  function OnAck(cfg: Config, c: Conn, n: nat): Conn
    requires Ordered(c.out) && AckAllowed(c.out, n) && n - c.out.acked <= |c.out.unacked|
  {
    Flush(cfg, c.(out := Acknowledge(c.out, n)))
  }

  /** A unit slot for the hold, unless it has one, and a flush. */
  function QueueUnit(cfg: Config, c: Conn, hold: Hold): Conn
    requires Ordered(c.out)
  {
    var key := UnitKey(hold);
    var o := if key in c.out.slots then c.out else Put(c.out, key, UnitSlot);
    PutOrdered(c.out, key, UnitSlot);
    Flush(cfg, c.(out := o))
  }

  /** Members that left the shape, or state that stopped: their streams end. */
  function EndFeeds(c: Conn, hold: Hold, gone: set<Name>): Conn
    requires hold in c.locals
  {
    var l := c.locals[hold];
    var doomed := set n | n in gone :: StreamKey(hold, n);
    Conn(DropKeys(c.out, doomed, c.out.order), c.locals[hold := l.(feeds := l.feeds - gone)], c.values)
  }

  /**
   Streams outside the shape end and a unit follows, past the window if the consumer has none yet and did not
   hold the object before.
   */
  function Unit(cfg: Config, c: Conn, hold: Hold): Conn
    requires Ordered(c.out)
  {
    if hold !in c.locals || c.locals[hold].shape.None? then c
    else
      var l := c.locals[hold];
      var c1 := EndFeeds(c, hold, l.feeds.Keys - Fed(l));
      DropKeysKeeps(cfg, c.out, (set n | n in l.feeds.Keys - Fed(l) :: StreamKey(hold, n)), c.out.order);
      if c1.locals[hold].feeds == map[] && !(l.again && !l.unitSent) then SendUnit(cfg, c1, hold)
      else QueueUnit(cfg, c1, hold)
  }

  function ShapeChanged(cfg: Config, c: Conn, hold: Hold, shape: Shape): Conn
    requires Ordered(c.out)
  {
    if hold !in c.locals then c
    else Unit(cfg, c.(locals := c.locals[hold := c.locals[hold].(shape := Some(shape))]), hold)
  }

  /** The member changed by `ops`: a fed stream gets them encoded. */
  function Changed(cfg: Config, c: Conn, hold: Hold, m: Name, ops: seq<Op>): Effect'
  {
    var c1 := c.(values := c.values[(hold, m) := ApplyAll(ValueOf(c, hold, m), ops)]);
    if hold !in c.locals || m !in c.locals[hold].feeds then Effect'(c1, [])
    else
      var l := c.locals[hold];
      var sent := Encode(l.feeds[m], ops);
      var e := SendState(cfg, c.out, OpsFrame(hold, m, sent.wire), false);
      Effect'(c1.(out := e.out, locals := c.locals[hold := l.(feeds := l.feeds[m := sent.encoder])]), e.resyncs)
  }

  /** The member got a whole new value: its stream starts anew. */
  function Replaced(cfg: Config, c: Conn, hold: Hold, m: Name, value: Value): Effect' {
    var c1 := c.(values := c.values[(hold, m) := value]);
    if hold !in c.locals || m !in c.locals[hold].feeds then Effect'(c1, [])
    else
      var l := c.locals[hold];
      var e := SendState(cfg, c.out, FullFrame(hold, m, value), false);
      Effect'(c1.(out := e.out, locals := c.locals[hold := l.(feeds := l.feeds[m := FRESH_ENCODER])]), e.resyncs)
  }

  datatype Effect' = Effect'(conn: Conn, resyncs: seq<Key>)

  /** The consumer's wish for state, on or off. */
  function OnWantState(cfg: Config, c: Conn, hold: Hold, wanted: bool): Conn
    requires Ordered(c.out)
  {
    if hold !in c.locals || c.locals[hold].wantsState == wanted then c
    else
      var l := c.locals[hold];
      if wanted then Unit(cfg, c.(locals := c.locals[hold := l.(wantsState := true)]), hold)
      else Conn(DropHoldState(c.out, hold), c.locals[hold := l.(wantsState := false, feeds := map[])], c.values)
  }

  /** Whatever the slot held is void; what is owed now is a reset. */
  function Lazied(o: Out, key: Key): Out {
    var relayed := key in o.slots && o.slots[key].StreamSlot? && o.slots[key].relayed;
    var size := if key in o.slots then SizeOf(o.slots[key]) else 0;
    Put(o, key, StreamSlot(None, [], 0, true, relayed)).(pendingBytes := o.pendingBytes - size)
  }

  lemma LaziedKeeps(cfg: Config, o: Out, key: Key)
    requires Ordered(o) && key.StreamKey?
    ensures Ordered(Lazied(o, key))
    ensures Accounted(cfg, o) ==> Accounted(cfg, Lazied(o, key))
  {
    var relayed := key in o.slots && o.slots[key].StreamSlot? && o.slots[key].relayed;
    PutKeeps(o, key, StreamSlot(None, [], 0, true, relayed));
  }

  /** The consumer's relay dropped ops and asks for a reset, through the window. */
  function OnResync(cfg: Config, c: Conn, hold: Hold, m: Name): Conn
    requires Ordered(c.out)
  {
    if hold !in c.locals || m !in c.locals[hold].feeds then c
    else
      LaziedKeeps(cfg, c.out, StreamKey(hold, m));
      Flush(cfg, c.(out := Lazied(c.out, StreamKey(hold, m))))
  }

  // ---------------------------------------------------------------- order is kept

  lemma PutOrdered(o: Out, key: Key, slot: Slot)
    requires Ordered(o) && (key.UnitKey? <==> slot.UnitSlot?)
    ensures Ordered(Put(o, key, slot))
  {
    PutKeeps(o, key, slot);
  }

  lemma {:induction false} SendAllOrdered(cfg: Config, o: Out, frames: seq<Frame>)
    ensures var end := SendAll(cfg, o, frames);
            end.slots == o.slots && end.order == o.order && end.wire == o.wire + frames && end.acks == o.acks
            && end.pendingBytes == o.pendingBytes
    decreases |frames|
  {
    if frames != [] {
      SendAllOrdered(cfg, Send(cfg, o, frames[0]), frames[1..]);
      assert o.wire + [frames[0]] + frames[1..] == o.wire + frames;
    } else {
      assert o.wire + [] == o.wire;
    }
  }

  lemma SendUnitOut(cfg: Config, c: Conn, hold: Hold)
    requires UnitKey(hold) !in c.out.slots
    ensures SendUnit(cfg, c, hold).out.slots == c.out.slots && SendUnit(cfg, c, hold).out.order == c.out.order
  {
    if hold in c.locals && c.locals[hold].shape.Some? {
      var l := c.locals[hold];
      SendAllOrdered(cfg, c.out, [ShapeFrame(hold, l.shape.value, Listed(l))] + Snapshots(c, hold, Listed(l)));
    }
  }

  lemma FlushFirstOrdered(cfg: Config, c: Conn)
    requires Ordered(c.out) && c.out.order != []
    ensures c.out.order[0] in c.out.slots
    ensures Ordered(FlushFirst(cfg, c).out)
    ensures |FlushFirst(cfg, c).out.order| == |c.out.order| - 1
  {
    var key := c.out.order[0];
    assert key in c.out.order;
    TakeOutKeeps(cfg, c.out, key);
    var c0 := c.(out := TakeOut(c.out, key));
    match key
    case UnitKey(hold) => SendUnitOut(cfg, c0, hold);
    case StreamKey(hold, m) =>
      if !c.out.slots[key].lazy {
        SendAllOrdered(cfg, c0.out, SlotFrames(key, c.out.slots[key]));
      }
  }
}
