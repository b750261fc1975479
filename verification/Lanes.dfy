/**
 One state member as a consumer will see it: whether a full value would be taken, and the replica.  Frames
 in flight, and what waits behind them, are evaluated on this view.
 */
module Lanes {
  import opened DeltaCodec
  import opened Wire
  import opened Wrappers
  import opened Remote

  datatype Lane = Lane(open: bool, replica: Option<Replica>)

  /** A batch that is rejected, or leans on the batch before it, loses the replica. */
  function FeedStrict(r: Replica, wire: seq<WireOp>): Option<Replica> {
    if SelfStarting(wire) && Decode(r.paths, wire).ok then Some(Feed(r, wire)) else None
  }

  function Advance(c: Contract, lane: Lane, hold: Hold, m: Name, f: Frame): Lane {
    match f
    case ShapeFrame(h, shape, listed) =>
      if h != hold then lane
      else if m !in Wanted(c, shape) then Lane(false, None)
      else if m in listed then lane.(open := true)
      else lane
    case FullFrame(h, n, value) =>
      if h == hold && n == m && lane.open then lane.(replica := Some(Fresh(value))) else lane
    case OpsFrame(h, n, ops) =>
      if h == hold && n == m && lane.replica.Some? then lane.(replica := FeedStrict(lane.replica.value, ops))
      else lane
    case OtherFrame(_) => lane
  }

  /** A stream through a relay: while awaiting a reset, ops are ignored. */
  datatype Stream = Stream(awaiting: bool, lane: Lane)

  function Flow(c: Contract, s: Stream, hold: Hold, m: Name, f: Frame): Stream {
    if s.awaiting && f.OpsFrame? && f.hold == hold && f.m == m then s
    else
      Stream(s.awaiting && !(f.FullFrame? && f.hold == hold && f.m == m), Advance(c, s.lane, hold, m, f))
  }

  function FlowAll(c: Contract, s: Stream, hold: Hold, m: Name, frames: seq<Frame>): Stream
    decreases |frames|
  {
    if frames == [] then s else FlowAll(c, Flow(c, s, hold, m, frames[0]), hold, m, frames[1..])
  }

  lemma {:induction false} FlowConcat(c: Contract, s: Stream, hold: Hold, m: Name, a: seq<Frame>, b: seq<Frame>)
    ensures FlowAll(c, s, hold, m, a + b) == FlowAll(c, FlowAll(c, s, hold, m, a), hold, m, b)
    decreases |a|
  {
    if a == [] {
      assert a + b == b;
    } else {
      assert (a + b)[0] == a[0] && (a + b)[1..] == a[1..] + b;
      FlowConcat(c, Flow(c, s, hold, m, a[0]), hold, m, a[1..], b);
    }
  }

  lemma FlowOne(c: Contract, s: Stream, hold: Hold, m: Name, f: Frame)
    ensures FlowAll(c, s, hold, m, [f]) == Flow(c, s, hold, m, f)
  {
    assert [f][1..] == [];
  }

  // ---------------------------------------------------------------- knowing more

  /** `y` is at least as far as `x`: what `x` promises, `y` has. */
  predicate Below(x: Lane, y: Lane) {
    (x.open ==> y.open) && (x.replica.Some? ==> x.replica == y.replica)
  }

  predicate BelowStream(s: Stream, t: Stream) {
    s.awaiting == t.awaiting && Below(s.lane, t.lane)
  }

  /** A replica comes only through an open lane. */
  predicate Sound(lane: Lane) {
    lane.replica.Some? ==> lane.open
  }

  lemma FlowMonotone(c: Contract, s: Stream, t: Stream, hold: Hold, m: Name, f: Frame)
    requires BelowStream(s, t) && Sound(s.lane) && Sound(t.lane)
    ensures BelowStream(Flow(c, s, hold, m, f), Flow(c, t, hold, m, f))
    ensures Sound(Flow(c, s, hold, m, f).lane) && Sound(Flow(c, t, hold, m, f).lane)
  {
  }

  lemma {:induction false} FlowAllMonotone(c: Contract, s: Stream, t: Stream, hold: Hold, m: Name, frames: seq<Frame>)
    requires BelowStream(s, t) && Sound(s.lane) && Sound(t.lane)
    ensures BelowStream(FlowAll(c, s, hold, m, frames), FlowAll(c, t, hold, m, frames))
    ensures Sound(FlowAll(c, s, hold, m, frames).lane) && Sound(FlowAll(c, t, hold, m, frames).lane)
    decreases |frames|
  {
    if frames != [] {
      FlowMonotone(c, s, t, hold, m, frames[0]);
      FlowAllMonotone(c, Flow(c, s, hold, m, frames[0]), Flow(c, t, hold, m, frames[0]), hold, m, frames[1..]);
    }
  }

  // ---------------------------------------------------------------- the binding's lane

  function Target(b: Binding, m: Name): Option<Replica> {
    if b.pending.Some? && m in b.pending.value.values then Some(b.pending.value.values[m])
    else if m in b.members then Some(b.members[m])
    else None
  }

  /** Whether the binding would take a full value of `m`. */
  predicate Takes(b: Binding, m: Name) {
    || (b.pending.Some? && (m in b.pending.value.missing || m in b.pending.value.values))
    || InVariant(b, m)
  }

  function Latest(b: Binding): Option<Shape> {
    if b.pending.Some? then Some(b.pending.value.shape) else b.shape
  }

  function LaneOf(b: Binding, m: Name): Lane {
    var open := !b.status.Ended? && Latest(b).Some? && m in Wanted(b.contract, Latest(b).value) && Takes(b, m);
    Lane(open, if open then Target(b, m) else None)
  }

  /** Applying a shape keeps the replica of a member it wants. */
  lemma AppliedKeepsTarget(b: Binding, m: Name)
    requires b.pending.Some? && m in Wanted(b.contract, b.pending.value.shape)
    ensures Target(Applied(b), m) == Target(b, m)
    ensures InVariant(Applied(b), m) && Latest(Applied(b)) == Latest(b)
  {
  }

  lemma LaneShaped(b: Binding, hold: Hold, m: Name, shape: Shape, listed: seq<Name>)
    requires Consistent(b) && !b.status.Ended?
    ensures Below(Advance(b.contract, LaneOf(b, m), hold, m, ShapeFrame(hold, shape, listed)),
                  LaneOf(Shaped(b, shape, listed), m))
  {
    if m in Wanted(b.contract, shape) {
      var owed := (set n | n in listed) + (if b.pending.Some? then b.pending.value.missing else {});
      assert m in listed ==> m in owed;
      var missing := if b.stateOn then owed * Wanted(b.contract, shape) else {};
      var values := if b.pending.Some? then b.pending.value.values else map[];
      var next := b.(pending := Some(Pending(shape, missing, values)));
      AppliedKeepsTarget(next, m);
    }
  }

  lemma LaneArrived(b: Binding, hold: Hold, m: Name, n: Name, value: Value)
    requires Consistent(b) && !b.status.Ended?
    ensures Below(Advance(b.contract, LaneOf(b, m), hold, m, FullFrame(hold, n, value)), LaneOf(Arrived(b, n, value), m))
  {
    if b.pending.Some? && (n in b.pending.value.missing || n in b.pending.value.values) { LaneAwaited(b, hold, m, n, value); }
  }

  /** A value that the pending shape waits for. */
  lemma LaneAwaited(b: Binding, hold: Hold, m: Name, n: Name, value: Value)
    requires Consistent(b) && !b.status.Ended?
    requires b.pending.Some? && (n in b.pending.value.missing || n in b.pending.value.values)
    ensures Below(Advance(b.contract, LaneOf(b, m), hold, m, FullFrame(hold, n, value)), LaneOf(Arrived(b, n, value), m))
  {
    var p := b.pending.value;
    var next := b.(pending := Some(p.(values := p.values[n := Fresh(value)], missing := p.missing - {n})));
    assert m == n ==> Target(next, m) == Some(Fresh(value));
    assert m != n ==> Target(next, m) == Target(b, m) && Takes(next, m) == Takes(b, m);
    if m in Wanted(b.contract, p.shape) { AppliedKeepsTarget(next, m); }
    hide Applied, Consistent, Wanted;
  }

  lemma LaneEdited(b: Binding, hold: Hold, m: Name, n: Name, wire: seq<WireOp>)
    requires Consistent(b) && !b.status.Ended?
    ensures Below(Advance(b.contract, LaneOf(b, m), hold, m, OpsFrame(hold, n, wire)), LaneOf(Edited(b, n, wire), m))
  {
  }

  lemma ReceiveKeepsKind(b: Binding, hold: Hold, f: Frame)
    requires !b.status.Ended?
    ensures Receive(b, hold, f).contract == b.contract && !Receive(b, hold, f).status.Ended?
  {
  }

  /** The binding does with a frame at least what the lane promises. */
  lemma LaneReceives(b: Binding, hold: Hold, m: Name, f: Frame)
    requires Consistent(b) && !b.status.Ended?
    ensures Below(Advance(b.contract, LaneOf(b, m), hold, m, f), LaneOf(Receive(b, hold, f), m))
  {
    if About(f, hold) {
      match f
      case ShapeFrame(h, shape, listed) => LaneShaped(b, h, m, shape, listed);
      case FullFrame(h, n, value) => LaneArrived(b, h, m, n, value);
      case OpsFrame(h, n, ops) => LaneEdited(b, h, m, n, ops);
    }
  }
}
