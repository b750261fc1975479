/** The relay as an object over the link it forwards to, proved against the functions of `RelayEnd`. */
module RelayObject {
  import opened Wire
  import opened FlowControl
  import opened Provider
  import opened RelayEnd
  import opened LinkEnd

  class RelayRefs {
    const origin: Connection
    var holds: map<Hold, RelayHold>
    /** What goes to the provider. */
    var up: seq<Request>

    function View(): Relay
      reads this, origin
    {
      Relay(origin.View(), holds, up)
    }

    constructor (origin: Connection, holds: map<Hold, RelayHold>)
      ensures this.origin == origin && View() == Relay(origin.View(), holds, [])
    {
      this.origin, this.holds, up := origin, holds, [];
    }

    /** A shape from above goes down at once and, if it is the first, makes its members urgent. */
    method Shape(f: Frame)
      requires f.ShapeFrame? && f.hold in holds
      modifies this, origin
      ensures View() == OnShape(origin.cfg, old(View()), f)
      ensures old(origin.Valid()) ==> origin.Valid()
    {
      var g := holds[f.hold];
      if !g.shaped {
        var urgent, i := {}, 0;
        while i < |f.listed|
          invariant 0 <= i <= |f.listed| && urgent == set n | n in f.listed[..i]
        {
          assert f.listed[..i + 1] == f.listed[..i] + [f.listed[i]];
          urgent := urgent + {f.listed[i]};
          i := i + 1;
        }
        assert f.listed[..i] == f.listed;
        g := g.(shaped := true, urgent := if g.again then g.urgent else urgent);
      }
      holds := holds[f.hold := g];
      origin.Send(f);
    }

    /** A state frame: ignored while a reset is awaited, urgent ones at once, the others through the window. */
    method State(f: Frame)
      requires origin.Valid() && (f.FullFrame? || f.OpsFrame?) && f.hold in holds
      modifies this, origin
      ensures View() == OnState(origin.cfg, old(View()), f) && origin.Valid()
    {
      var g := holds[f.hold];
      if f.m in g.awaiting {
        if f.OpsFrame? { return; }
      }
      holds := holds[f.hold := g.(awaiting := g.awaiting - {f.m}, urgent := g.urgent - {f.m})];
      if f.m in g.urgent {
        origin.Send(f);
        return;
      }
      var resyncs := origin.SendState(f, true);
      Resync(resyncs);
    }

    /** What waited was dropped: resets are asked for, and ops ignored until they come. */
    method Resync(keys: seq<Key>)
      modifies this`holds, this`up
      ensures View() == AskResets(old(View()), keys)
    {
      var i := 0;
      while i < |keys|
        invariant 0 <= i <= |keys|
        invariant AskResets(old(View()), keys) == AskResets(View(), keys[i..])
      {
        var k := keys[i];
        assert keys[i..][0] == k && keys[i..][1..] == keys[i + 1..];
        if k.StreamKey? && k.hold in holds {
          var g := holds[k.hold];
          holds := holds[k.hold := g.(awaiting := g.awaiting + {k.m})];
          up := up + [Request.Resync(k.hold, k.m)];
        }
        i := i + 1;
      }
    }

    /** A wish from below, passed on up. */
    method WantState(h: Hold, wanted: bool)
      requires origin.Valid() && h in holds
      modifies this, origin
      ensures View() == RelayEnd.WantState(old(View()), h, wanted) && origin.Valid()
    {
      var g := holds[h];
      if wanted == g.stateWanted { return; }
      g := g.(stateWanted := wanted);
      if !wanted {
        origin.DropHoldState(h);
        g := g.(awaiting := {});
      }
      holds := holds[h := g];
      up := up + [if wanted then Sub(h) else Unsub(h)];
    }
  }
}
