/**
 Provider, relay and consumer over two links, as a state machine.  Over every run each streamed member
 converges through the relay, although the relay drops what does not fit and keeps no values.
 */
module RelayLink {
  import opened Wire
  import opened Remote
  import opened Lanes
  import opened FlowControl
  import opened Convergence
  import opened ConvergenceSteps
  import opened ProviderBooks
  import opened DirectLink
  import opened RelayEnd

  // ---------------------------------------------------------------- asking for resets

  /** What holds once the state wishes on their way have been served. */
  function LastWish(requests: seq<Request>, h: Hold, now: bool): bool
    decreases |requests|
  {
    if requests == [] then now
    else
      LastWish(requests[1..], h,
               if requests[0] == Sub(h) then true else if requests[0] == Unsub(h) then false else now)
  }

  lemma {:induction false} LastWishAppend(requests: seq<Request>, h: Hold, now: bool, q: Request)
    ensures LastWish(requests + [q], h, now)
         == if q == Sub(h) then true else if q == Unsub(h) then false else LastWish(requests, h, now)
    decreases |requests|
  {
    if requests == [] {
      assert ([] + [q])[1..] == [];
    } else {
      assert (requests + [q])[0] == requests[0] && (requests + [q])[1..] == requests[1..] + [q];
      LastWishAppend(requests[1..], h, if requests[0] == Sub(h) then true else if requests[0] == Unsub(h) then false else now, q);
    }
  }

  lemma {:induction false} NoUnsubNoStop(requests: seq<Request>, h: Hold, now: bool)
    requires Unsub(h) !in requests && now
    ensures LastWish(requests, h, now)
    decreases |requests|
  {
    if requests != [] {
      assert requests[0] in requests;
      NoUnsubNoStop(requests[1..], h, true);
    }
  }

  /** Two states of the requests going up that only differ in resets asked for. */
  ghost predicate OnlyResets(before: seq<Request>, after: seq<Request>) {
    && (forall q :: q in before ==> q in after)
    && (forall q :: q in after && !q.Resync? ==> q in before)
    && (forall h, now :: LastWish(after, h, now) == LastWish(before, h, now))
    && (forall o, received, acking :: Honest(o, before, received, acking) ==> Honest(o, after, received, acking))
  }

  lemma OnlyResetsOne(requests: seq<Request>, q: Request)
    requires q.Resync?
    ensures OnlyResets(requests, requests + [q])
  {
    forall h, now ensures LastWish(requests + [q], h, now) == LastWish(requests, h, now) {
      LastWishAppend(requests, h, now, q);
    }
    forall o, received, acking | Honest(o, requests, received, acking)
      ensures Honest(o, requests + [q], received, acking)
    {
      HonestAppend(o, requests, received, acking, q);
    }
  }

  lemma {:induction false} AskIs(r: Relay, keys: seq<Key>, h: Hold, m: Name)
    ensures var end := AskResets(r, keys);
            && end.origin == r.origin && end.holds.Keys == r.holds.Keys && OnlyResets(r.up, end.up)
            && (forall x :: x in r.holds ==>
                  r.holds[x].(awaiting := end.holds[x].awaiting) == end.holds[x] && r.holds[x].awaiting <= end.holds[x].awaiting)
            && (h in r.holds ==> (AwaitsReset(end, h, m) <==> AwaitsReset(r, h, m) || StreamKey(h, m) in keys))
            && (h in r.holds && StreamKey(h, m) in keys ==> Request.Resync(h, m) in end.up)
            && (Request.Resync(h, m) in r.up ==> Request.Resync(h, m) in end.up)
    decreases |keys|
  {
    if keys != [] {
      var k := keys[0];
      assert forall x :: x in keys <==> x == k || x in keys[1..];
      if k.StreamKey? && k.hold in r.holds {
        var g := r.holds[k.hold];
        var r1 := r.(holds := r.holds[k.hold := g.(awaiting := g.awaiting + {k.m})],
                     up := r.up + [Request.Resync(k.hold, k.m)]);
        OnlyResetsOne(r.up, Request.Resync(k.hold, k.m));
        AskIs(r1, keys[1..], h, m);
      } else {
        AskIs(r, keys[1..], h, m);
      }
    }
  }

  /** Keys whose slot is gone may be asked for. */
  lemma AskRelaying(r: Relay, keys: seq<Key>)
    requires Relaying(r) && forall k :: k in keys ==> k !in r.origin.out.slots
    ensures Relaying(AskResets(r, keys))
  {
    AskIs(r, keys, 0, "");
    var end := AskResets(r, keys);
    forall k | k in end.origin.out.slots && k.StreamKey? && k.hold in end.holds
      ensures end.holds[k.hold].shaped && k.m !in end.holds[k.hold].awaiting && k.m !in end.holds[k.hold].urgent
    {
      AskIs(r, keys, k.hold, k.m);
    }
  }

  // ---------------------------------------------------------------- sending state with a cap

  lemma SendStateResyncs(cfg: Config, o: Out, f: Frame, relayed: bool, k: Key)
    requires f.FullFrame? || f.OpsFrame?
    ensures k in SendState(cfg, o, f, relayed).resyncs ==> k !in SendState(cfg, o, f, relayed).out.slots
    ensures k in SendState(cfg, o, f, relayed).resyncs && k != StreamKey(f.hold, f.m) ==> k in o.slots
  {
    var key := StreamKey(f.hold, f.m);
    if key in o.slots || WindowFull(cfg, o) {
      var o1 := if key in o.slots then o else Put(o, key, EMPTY_SLOT.(relayed := relayed));
      if f.OpsFrame? && o1.slots[key].StreamSlot? && !o1.slots[key].lazy {
        MakeRoomIs(cfg, o1, cfg.opsSize(f.ops), key, o1.order, k);
      }
    }
  }

  /** Another stream's frame is sent or waits: the front stays, or what waits is lost and a reset asked for. */
  lemma FrontOther(cfg: Config, r: Relay, f: Frame, relayed: bool, k: Contract, lane: Lane, h: Hold, m: Name)
    requires Relaying(r) && h in r.holds && Sound(lane)
    requires (f.FullFrame? || f.OpsFrame?) && (f.hold, f.m) != (h, m)
    ensures var e := SendState(cfg, r.origin.out, f, relayed);
            var before, after := Front(k, lane, r.origin.out, h, m), Front(k, lane, e.out, h, m);
            && Sound(after) && Sound(before)
            && (StreamKey(h, m) !in e.resyncs ==> after == before)
            && (StreamKey(h, m) in e.resyncs ==>
                  && StreamKey(h, m) in r.origin.out.slots && before.open == after.open)
  {
    var o := r.origin.out;
    var key := StreamKey(h, m);
    var e := SendState(cfg, o, f, relayed);
    FrontSound(k, lane, o, h, m);
    FrontSound(k, lane, e.out, h, m);
    SendStateIs(cfg, o, f, relayed, key);
    SendStateResyncs(cfg, o, f, relayed, key);
    var s := FlowAll(k, Stream(false, lane), h, m, o.wire);
    FlowConcat(k, Stream(false, lane), h, m, o.wire, [f]);
    FlowOne(k, s, h, m, f);
    FlowUnrelated(k, s, h, m, f);
    assert FlowAll(k, Stream(false, lane), h, m, e.out.wire) == s;
    SlotKeepsOpen(k, s, h, m, SlotOf(o, key));
  }

  /** The relayed stream's own frame. */
  lemma FrontOwn(cfg: Config, r: Relay, f: Frame, k: Contract, lane: Lane, h: Hold, m: Name)
    requires Relaying(r) && h in r.holds && Sound(lane)
    requires (f.FullFrame? || f.OpsFrame?) && f.hold == h && f.m == m
    ensures var e := SendState(cfg, r.origin.out, f, true);
            var before := Stream(false, Front(k, lane, r.origin.out, h, m));
            var after := Front(k, lane, e.out, h, m);
            && Sound(after)
            && (StreamKey(h, m) !in e.resyncs ==> BelowStream(Flow(k, before, h, m, f), Stream(false, after)))
            && (StreamKey(h, m) in e.resyncs ==> f.OpsFrame? && after.open == before.lane.open)
  {
    var o, key := r.origin.out, StreamKey(h, m);
    var e := SendState(cfg, o, f, true);
    FrontSound(k, lane, o, h, m);
    FrontSound(k, lane, e.out, h, m);
    SendStateIs(cfg, o, f, true, key);
    SendStateResyncs(cfg, o, f, true, key);
    var s := FlowAll(k, Stream(false, lane), h, m, o.wire);
    FlowConcat(k, Stream(false, lane), h, m, o.wire, [f]);
    FlowOne(k, s, h, m, f);
    SlotKeepsOpen(k, s, h, m, SlotOf(o, key));
    if key in o.slots || WindowFull(cfg, o) {
      SendStateOwn(cfg, o, f, true);
      var st := if key in o.slots then o.slots[key] else EMPTY_SLOT.(relayed := true);
      SlotFlow(k, s, h, m, st);
      assert AfterSlot(k, s, h, m, SlotOf(o, key)) == FlowOps(FlowBase(s, st.base), st.ops) by {
        if key !in o.slots && s.lane.replica.Some? { FeedNothing(s.lane.replica.value); }
      }
      if f.FullFrame? {
        SlotFlow(k, s, h, m, e.out.slots[key]);
        FlowFullIs(k, AfterSlot(k, s, h, m, SlotOf(o, key)), h, m, f.value);
        FeedNothing(Fresh(f.value));
      } else if key in e.out.slots {
        SlotFlow(k, s, h, m, e.out.slots[key]);
        FlowOpsConcat(FlowBase(s, st.base), st.ops, f.ops);
        FlowOpsIs(k, AfterSlot(k, s, h, m, SlotOf(o, key)), h, m, f.ops);
      }
    }
  }

  /** A shape overtakes what waits: nothing is lost. */
  lemma FrontShape(k: Contract, lane: Lane, o: Out, next: Out, f: Frame, h: Hold, m: Name)
    requires f.ShapeFrame? && Sound(lane) && next.wire == o.wire + [f] && next.slots == o.slots
    ensures BelowStream(Flow(k, Stream(false, Front(k, lane, o, h, m)), h, m, f), Stream(false, Front(k, lane, next, h, m)))
    ensures Sound(Front(k, lane, next, h, m))
  {
    FrontSound(k, lane, o, h, m);
    FrontSound(k, lane, next, h, m);
    var s := FlowAll(k, Stream(false, lane), h, m, o.wire);
    FlowConcat(k, Stream(false, lane), h, m, o.wire, [f]);
    FlowOne(k, s, h, m, f);
    var slot := SlotOf(o, StreamKey(h, m));
    if slot.Some? && slot.value.StreamSlot? {
      SlotFlow(k, s, h, m, slot.value);
      SlotFlow(k, Flow(k, s, h, m, f), h, m, slot.value);
    }
  }

  // ---------------------------------------------------------------- one frame through the relay

  lemma OnStateRelaying(cfg: Config, r: Relay, f: Frame)
    requires Relaying(r) && (f.FullFrame? || f.OpsFrame?) && f.hold in r.holds && r.holds[f.hold].shaped
    ensures Relaying(OnState(cfg, r, f))
  {
    var g := r.holds[f.hold];
    if f.m in g.awaiting && f.OpsFrame? {
    } else {
      var g1 := g.(awaiting := g.awaiting - {f.m}, urgent := g.urgent - {f.m});
      var r1 := r.(holds := r.holds[f.hold := g1]);
      assert Relaying(r1);
      if f.m in g.urgent {
        ServingWith(r.origin, Send(cfg, r.origin.out, f), r.origin.locals, r.origin.values);
      } else {
        var e := SendState(cfg, r.origin.out, f, true);
        SendStateServing(cfg, r.origin, f, true);
        var r2 := r1.(origin := r.origin.(out := e.out));
        var key := StreamKey(f.hold, f.m);
        forall k | k in e.out.slots && k.StreamKey? && k.hold in r2.holds
          ensures e.out.slots[k].relayed && !e.out.slots[k].lazy && r2.holds[k.hold].shaped
          ensures k.m !in r2.holds[k.hold].awaiting && k.m !in r2.holds[k.hold].urgent
        {
          SendStateIs(cfg, r.origin.out, f, true, k);
          if k == key {
            if key in r.origin.out.slots || WindowFull(cfg, r.origin.out) { SendStateOwn(cfg, r.origin.out, f, true); }
          } else {
            assert k in r.origin.out.slots;
          }
        }
        assert Relaying(r2);
        forall k | k in e.resyncs ensures k !in e.out.slots { SendStateResyncs(cfg, r.origin.out, f, true, k); }
        AskRelaying(r2, e.resyncs);
      }
    }
  }

  lemma OnFrameRelaying(cfg: Config, r: Relay, f: Frame)
    requires Relaying(r) && ((f.FullFrame? || f.OpsFrame?) && f.hold in r.holds ==> r.holds[f.hold].shaped)
    ensures Relaying(OnFrame(cfg, r, f))
  {
    if (f.FullFrame? || f.OpsFrame?) && f.hold in r.holds {
      OnStateRelaying(cfg, r, f);
    } else if f.ShapeFrame? && f.hold in r.holds {
      ServingWith(r.origin, Send(cfg, r.origin.out, f), r.origin.locals, r.origin.values);
    }
  }

  /** What forwarding does not change. */
  ghost predicate Forwarded(r: Relay, next: Relay, f: Frame) {
    && next.holds.Keys == r.holds.Keys && next.origin.locals == r.origin.locals
    && OnlyResets(r.up, next.up)
    && (forall h :: h in r.holds ==>
          && next.holds[h].stateWanted == r.holds[h].stateWanted
          && next.holds[h].shaped == (r.holds[h].shaped || IsShape(f, h)))
  }

  lemma OnFrameForwards(cfg: Config, r: Relay, f: Frame)
    ensures Forwarded(r, OnFrame(cfg, r, f), f)
  {
    if (f.FullFrame? || f.OpsFrame?) && f.hold in r.holds {
      var g := r.holds[f.hold];
      var g1 := g.(awaiting := g.awaiting - {f.m}, urgent := g.urgent - {f.m});
      var r1 := r.(holds := r.holds[f.hold := g1]);
      var e := SendState(cfg, r.origin.out, f, true);
      var r2 := r1.(origin := r.origin.(out := e.out));
      AskIs(r2, e.resyncs, f.hold, f.m);
      assert Forwarded(r, AskResets(r2, e.resyncs), f);
    }
  }

  /** What the relay makes of a frame replaces what the frame itself would do. */
  lemma OnFrameReplaces(cfg: Config, r: Relay, f: Frame, k: Contract, lane: Lane, h: Hold, m: Name)
    requires Relaying(r) && h in r.holds && Sound(lane)
    requires (f.FullFrame? || f.OpsFrame?) && f.hold in r.holds ==> r.holds[f.hold].shaped
    ensures var next := OnFrame(cfg, r, f);
            Replaces(Flow(k, StreamAt(r, k, lane, h, m), h, m, f), StreamAt(next, k, lane, h, m),
                     Request.Resync(h, m) in r.up, Request.Resync(h, m) in next.up)
  {
    var s := StreamAt(r, k, lane, h, m);
    FrontSound(k, lane, r.origin.out, h, m);
    if f.OtherFrame? || f.hold !in r.holds {
      FlowUnrelated(k, s, h, m, f);
    } else if f.ShapeFrame? {
      FrontShape(k, lane, r.origin.out, Send(cfg, r.origin.out, f), f, h, m);
      if f.hold != h { FlowUnrelated(k, s, h, m, f); }
    } else if f.hold == h && f.m == m {
      OnStateOwn(cfg, r, f, k, lane, h, m);
    } else {
      OnStateOther(cfg, r, f, k, lane, h, m);
    }
  }

  lemma OnStateOwn(cfg: Config, r: Relay, f: Frame, k: Contract, lane: Lane, h: Hold, m: Name)
    requires Relaying(r) && h in r.holds && Sound(lane)
    requires (f.FullFrame? || f.OpsFrame?) && f.hold == h && f.m == m && r.holds[h].shaped
    ensures var next := OnState(cfg, r, f);
            Replaces(Flow(k, StreamAt(r, k, lane, h, m), h, m, f), StreamAt(next, k, lane, h, m),
                     Request.Resync(h, m) in r.up, Request.Resync(h, m) in next.up)
  {
    var g := r.holds[h];
    FrontSound(k, lane, r.origin.out, h, m);
    if !(f.m in g.awaiting && f.OpsFrame?) {
      if m in g.urgent { OnUrgentOwn(cfg, r, f, k, lane, h, m); } else { OnPatientOwn(cfg, r, f, k, lane, h, m); }
    }
    hide Relaying;
  }

  /** Past the window: the frame goes on the wire, and nothing of the stream waits. */
  lemma OnUrgentOwn(cfg: Config, r: Relay, f: Frame, k: Contract, lane: Lane, h: Hold, m: Name)
    requires Relaying(r) && h in r.holds && Sound(lane) && m in r.holds[h].urgent
    requires (f.FullFrame? || f.OpsFrame?) && f.hold == h && f.m == m && r.holds[h].shaped
    requires !(f.m in r.holds[h].awaiting && f.OpsFrame?)
    ensures var next := OnState(cfg, r, f);
            Replaces(Flow(k, StreamAt(r, k, lane, h, m), h, m, f), StreamAt(next, k, lane, h, m),
                     Request.Resync(h, m) in r.up, Request.Resync(h, m) in next.up)
  {
    var o, key := r.origin.out, StreamKey(h, m);
    FrontSound(k, lane, o, h, m);
    hide Sound, BelowStream;
    assert key !in o.slots;
    FlowConcat(k, Stream(false, lane), h, m, o.wire, [f]);
    FlowOne(k, FlowAll(k, Stream(false, lane), h, m, o.wire), h, m, f);
    FrontSound(k, lane, Send(cfg, o, f), h, m);
  }

  lemma OnPatientOwn(cfg: Config, r: Relay, f: Frame, k: Contract, lane: Lane, h: Hold, m: Name)
    requires Relaying(r) && h in r.holds && Sound(lane) && m !in r.holds[h].urgent
    requires (f.FullFrame? || f.OpsFrame?) && f.hold == h && f.m == m && r.holds[h].shaped
    requires !(f.m in r.holds[h].awaiting && f.OpsFrame?)
    ensures var next := OnState(cfg, r, f);
            Replaces(Flow(k, StreamAt(r, k, lane, h, m), h, m, f), StreamAt(next, k, lane, h, m),
                     Request.Resync(h, m) in r.up, Request.Resync(h, m) in next.up)
  {
    var g, e := r.holds[h], SendState(cfg, r.origin.out, f, true);
    var r1 := r.(holds := r.holds[h := g.(awaiting := g.awaiting - {m}, urgent := g.urgent - {m})]);
    FrontSound(k, lane, r.origin.out, h, m);
    FrontOwn(cfg, r, f, k, lane, h, m);
    AskIs(r1.(origin := r.origin.(out := e.out)), e.resyncs, h, m);
    hide SendState, Front, Relaying;
  }

  lemma OnStateOther(cfg: Config, r: Relay, f: Frame, k: Contract, lane: Lane, h: Hold, m: Name)
    requires Relaying(r) && h in r.holds && Sound(lane)
    requires (f.FullFrame? || f.OpsFrame?) && f.hold in r.holds && (f.hold, f.m) != (h, m)
    ensures var next := OnState(cfg, r, f);
            Replaces(Flow(k, StreamAt(r, k, lane, h, m), h, m, f), StreamAt(next, k, lane, h, m),
                     Request.Resync(h, m) in r.up, Request.Resync(h, m) in next.up)
  {
    var g, o := r.holds[f.hold], r.origin.out;
    FlowUnrelated(k, StreamAt(r, k, lane, h, m), h, m, f);
    FrontSound(k, lane, o, h, m);
    if f.m in g.awaiting && f.OpsFrame? {
    } else {
      var r1 := r.(holds := r.holds[f.hold := g.(awaiting := g.awaiting - {f.m}, urgent := g.urgent - {f.m})]);
      assert AwaitsReset(r1, h, m) == AwaitsReset(r, h, m);
      if f.m in g.urgent {
        FrontUnrelated(k, lane, o, Send(cfg, o, f), [f], h, m);
      } else {
        var e := SendState(cfg, o, f, true);
        FrontOther(cfg, r, f, true, k, lane, h, m);
        AskIs(r1.(origin := r.origin.(out := e.out)), e.resyncs, h, m);
      }
    }
  }
}
