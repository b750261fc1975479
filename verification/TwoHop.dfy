/** The whole system of provider, relay and consumer, its steps, and convergence over every run. */
module TwoHop {
  import opened DeltaCodec
  import opened Wire
  import opened Wrappers
  import opened Remote
  import opened Lanes
  import opened FlowControl
  import opened Provider
  import opened Convergence
  import opened ConvergenceSteps
  import opened ProviderBooks
  import opened DirectLink
  import opened RelayEnd
  import opened RelayLink

  /** `taken` frames left the provider's link, `received` the relay's link to the consumer. */
  datatype System = System(
    provider: Conn,
    taken: nat,
    relay: Relay,
    received: nat,
    down: seq<Request>,
    bindings: map<Hold, Binding>,
    broken: bool)

  datatype Move =
    | ProviderAct(act: Act)
    | ServeUp
    | Forward
    | RelayAct(act: Act)
    | ServeDown
    | Arrive
    | AckUp
    | AckDown
    | ViewChange(hold: Hold, event: Event)

  /** The windows and caps of the two links, and whether their receivers acknowledge. */
  datatype Setup = Setup(up: Config, down: Config, ackingUp: bool, ackingDown: bool)

  /** The system once the first frame reached the consumer. */
  function Arrived(n: System): System
    requires n.relay.origin.out.wire != []
  {
    var o := n.relay.origin.out;
    n.(relay := n.relay.(origin := n.relay.origin.(out := o.(wire := o.wire[1..]))), received := n.received + 1,
       bindings := Receives(n.bindings, o.wire[0]))
  }

  function Move1(u: Setup, n: System, s: Move): System
    requires Ordered(n.provider.out) && Ordered(n.relay.origin.out)
  {
    match s
    case ProviderAct(act) => n.(provider := DoAct(u.up, n.provider, act))
    case ServeUp =>
      if n.relay.up == [] then n
      else
        var served := ServeRequest(u.up, n.provider, n.relay.up[0]);
        if served.None? then n.(broken := true)
        else n.(provider := served.value, relay := n.relay.(up := n.relay.up[1..]))
    case Forward =>
      if n.provider.out.wire == [] then n
      else
        n.(provider := n.provider.(out := n.provider.out.(wire := n.provider.out.wire[1..])), taken := n.taken + 1,
           relay := OnFrame(u.down, n.relay, n.provider.out.wire[0]))
    case RelayAct(act) => n.(relay := RelayEnd.Act(u.down, n.relay, act))
    case ServeDown =>
      if n.down == [] then n
      else
        var served := OnRequest(u.down, n.relay, n.down[0]);
        if served.None? then n.(broken := true) else n.(relay := served.value, down := n.down[1..])
    case Arrive => if n.relay.origin.out.wire == [] then n else Arrived(n)
    case AckUp => if u.ackingUp then n.(relay := n.relay.(up := n.relay.up + [Request.Ack(n.taken)])) else n
    case AckDown => if u.ackingDown then n.(down := n.down + [Request.Ack(n.received)]) else n
    case ViewChange(h, e) =>
      if h !in n.bindings || !(e.AddView? || e.RemoveView?) then n
      else
        var b := Handle(n.bindings[h], h, e);
        n.(bindings := n.bindings[h := b], down := n.down + Wish(h, n.bindings[h], b))
  }

  // ---------------------------------------------------------------- the invariant

  /** Bindings are alive, and the two ends of a relayed hold have the same contract. */
  ghost predicate Contracted(holds: map<Hold, RelayHold>, locals: map<Hold, Local>, bindings: map<Hold, Binding>) {
    && (forall h :: h in bindings ==> Consistent(bindings[h]) && !bindings[h].status.Ended?)
    && (forall h :: h in holds ==> h in locals && h in bindings && bindings[h].contract == locals[h].contract)
  }

  /** Until the first unit went through, its shape is still ahead; and the relay's wish is the last one sent up. */
  ghost predicate Wished(holds: map<Hold, RelayHold>, up: seq<Request>, c: Conn) {
    forall h :: h in holds && h in c.locals ==>
      && (holds[h].shaped || UnitFirst(c, h))
      && LastWish(up, h, c.locals[h].wantsState) == holds[h].stateWanted
  }

  /** The books of one direction and the acknowledgements on their way back. */
  ghost predicate LinkOk(cfg: Config, o: Out, received: nat, requests: seq<Request>, acking: bool) {
    Books(cfg, o, received) && Honest(o, requests, received, acking)
  }

  predicate NoResync(requests: seq<Request>) {
    forall q :: q in requests ==> !q.Resync?
  }

  predicate Undisturbed(n: System, h: Hold) {
    h in n.relay.holds && h in n.bindings && Unsub(h) !in n.relay.up && Unsub(h) !in n.down
  }

  /** Where member `m` stands before the frames on the provider's link. */
  function StandsAt(r: Relay, bindings: map<Hold, Binding>, h: Hold, m: Name): Stream
    requires h in bindings
  {
    StreamAt(r, bindings[h].contract, LaneOf(bindings[h], m), h, m)
  }

  ghost predicate Converges(n: System, h: Hold, m: Name) {
    Undisturbed(n, h) ==>
      Delivers(n.provider, h, m, StandsAt(n.relay, n.bindings, h, m), Request.Resync(h, m) in n.relay.up)
  }

  /** What holds apart from convergence. */
  ghost predicate Sane(u: Setup, n: System) {
    && Serving(n.provider) && Relaying(n.relay)
    && Contracted(n.relay.holds, n.provider.locals, n.bindings)
    && Wished(n.relay.holds, n.relay.up, n.provider)
    && LinkOk(u.up, n.provider.out, n.taken, n.relay.up, u.ackingUp)
    && LinkOk(u.down, n.relay.origin.out, n.received, n.down, u.ackingDown)
    && NoResync(n.down) && !n.broken
  }

  ghost predicate Inv(u: Setup, n: System) {
    Sane(u, n) && forall h, m :: Converges(n, h, m)
  }

  // ---------------------------------------------------------------- the provider's steps

  lemma LaneSound(b: Binding, m: Name)
    ensures Sound(LaneOf(b, m))
  {
  }

  lemma StandsSound(r: Relay, bindings: map<Hold, Binding>, h: Hold, m: Name)
    requires h in bindings
    ensures Sound(StandsAt(r, bindings, h, m).lane)
  {
    LaneSound(bindings[h], m);
    FrontSound(bindings[h].contract, LaneOf(bindings[h], m), r.origin.out, h, m);
  }

  lemma HonestSame(o: Out, next: Out, requests: seq<Request>, received: nat, acking: bool)
    requires Honest(o, requests, received, acking) && SameAcks(o, next)
    ensures Honest(next, requests, received, acking)
  {
  }

  lemma HonestMore(o: Out, before: seq<Request>, after: seq<Request>, received: nat, acking: bool)
    requires OnlyResets(before, after) && Honest(o, before, received, acking)
    ensures Honest(o, after, received, acking)
  {
  }

  lemma ContractedSame(holds: map<Hold, RelayHold>, locals: map<Hold, Local>, bindings: map<Hold, Binding>,
                       holds': map<Hold, RelayHold>, c: Conn, c': Conn)
    requires Contracted(holds, locals, bindings) && holds'.Keys == holds.Keys
    requires locals == c.locals && SameContracts(c, c')
    ensures Contracted(holds', c'.locals, bindings)
  {
  }

  lemma ContractedKeys(holds: map<Hold, RelayHold>, holds': map<Hold, RelayHold>, locals: map<Hold, Local>,
                       bindings: map<Hold, Binding>)
    requires Contracted(holds, locals, bindings) && holds'.Keys == holds.Keys
    ensures Contracted(holds', locals, bindings)
  {
  }

  lemma ContractedAt(holds: map<Hold, RelayHold>, locals: map<Hold, Local>, bindings: map<Hold, Binding>, h: Hold)
    requires Contracted(holds, locals, bindings)
    ensures h in bindings ==> Consistent(bindings[h]) && !bindings[h].status.Ended?
    ensures h in holds ==> h in locals && h in bindings && bindings[h].contract == locals[h].contract
  {
  }

  lemma ActWishes(cfg: Config, holds: map<Hold, RelayHold>, up: seq<Request>, c: Conn, act: Act, taken: nat)
    requires Wished(holds, up, c) && Serving(c) && Books(cfg, c.out, taken)
    ensures Wished(holds, up, DoAct(cfg, c, act))
  {
    hide Books, Serving, DoAct, UnitFirst;
    ServingOrdered(c);
    DoActAcks(cfg, c, act);
    forall h | h in holds && h in c.locals && !holds[h].shaped ensures UnitFirst(DoAct(cfg, c, act), h) {
      DoActOrderly(cfg, c, act, taken, h, false);
    }
  }

  lemma ServingOrdered(c: Conn)
    requires Serving(c)
    ensures Ordered(c.out)
  {
  }

  lemma InvOrdered(u: Setup, n: System)
    requires Sane(u, n)
    ensures Ordered(n.provider.out) && Ordered(n.relay.origin.out)
  {
  }

  lemma ProvideSane(u: Setup, n: System, act: Act)
    requires Sane(u, n)
    ensures Sane(u, Move1(u, n, ProviderAct(act)))
  {
    InvOrdered(u, n);
    hide Ordered, DoAct, Books, Honest, Serving, Relaying, Delivers;
    var c, c' := n.provider, DoAct(u.up, n.provider, act);
    DoActServing(u.up, c, act);
    DoActAcks(u.up, c, act);
    DoActOrderly(u.up, c, act, n.taken, 0, true);
    HonestSame(c.out, c'.out, n.relay.up, n.taken, u.ackingUp);
    ActWishes(u.up, n.relay.holds, n.relay.up, c, act, n.taken);
    ContractedSame(n.relay.holds, c.locals, n.bindings, n.relay.holds, c, c');
  }

  lemma ProvideConverges(u: Setup, n: System, act: Act, h: Hold, m: Name)
    requires Sane(u, n) && Converges(n, h, m)
    ensures Ordered(n.provider.out) && Ordered(n.relay.origin.out)
    ensures Converges(Move1(u, n, ProviderAct(act)), h, m)
  {
    InvOrdered(u, n);
    hide Ordered, DoAct, LinkOk, Serving, Relaying, Delivers, Front;
    if Undisturbed(n, h) {
      DoActKeeps(u.up, n.provider, act, h, m, StandsAt(n.relay, n.bindings, h, m), Request.Resync(h, m) in n.relay.up);
    }
  }

  lemma AckAllowedHere(cfg: Config, c: Conn, received: nat, requests: seq<Request>, acking: bool)
    requires LinkOk(cfg, c.out, received, requests, acking) && requests != []
    ensures Ordered(c.out) && ServeRequest(cfg, c, requests[0]).Some?
  {
    if requests[0].Ack? { AcksBound(requests[0].n, requests[1..], received); }
  }

  lemma ServedLink(cfg: Config, c: Conn, received: nat, requests: seq<Request>, acking: bool)
    requires LinkOk(cfg, c.out, received, requests, acking) && Serving(c) && requests != []
    requires ServeRequest(cfg, c, requests[0]).Some?
    ensures LinkOk(cfg, ServeRequest(cfg, c, requests[0]).value.out, received, requests[1..], acking)
  {
    var q := requests[0];
    ServeRequestAcks(cfg, c, q);
    ServeOrderly(cfg, c, q, received, 0, true);
    HonestPop(c.out, ServeRequest(cfg, c, q).value.out, requests, received, acking);
  }

  lemma ServedWishes(cfg: Config, holds: map<Hold, RelayHold>, up: seq<Request>, c: Conn, taken: nat)
    requires Wished(holds, up, c) && Serving(c) && Books(cfg, c.out, taken) && up != []
    requires ServeRequest(cfg, c, up[0]).Some?
    ensures Wished(holds, up[1..], ServeRequest(cfg, c, up[0]).value)
  {
    ServingOrdered(c);
    hide Books, Serving, UnitFirst, Ordered;
    ServeRequestAcks(cfg, c, up[0]);
    var next := ServeRequest(cfg, c, up[0]).value;
    hide ServeRequest;
    forall h | h in holds && h in c.locals && !holds[h].shaped ensures UnitFirst(next, h) {
      ServeOrderly(cfg, c, up[0], taken, h, false);
    }
  }

  lemma ServedServing(cfg: Config, c: Conn, q: Request)
    requires Serving(c) && ServeRequest(cfg, c, q).Some?
    ensures Serving(ServeRequest(cfg, c, q).value)
  {
    var x := Unserved(c);
    ServeKeeps(cfg, c, q, x, "", Stream(false, Lane(false, None)), false, false);
  }

  lemma ServeUpOne(u: Setup, n: System, next: System, h: Hold, m: Name)
    requires Serving(n.provider) && Converges(n, h, m) && n.relay.up != []
    requires ServeRequest(u.up, n.provider, n.relay.up[0]).Some?
    requires next.provider == ServeRequest(u.up, n.provider, n.relay.up[0]).value && next.bindings == n.bindings
    requires next.relay == n.relay.(up := n.relay.up[1..]) && next.down == n.down
    ensures Converges(next, h, m)
  {
    hide ServeRequest, Serving, Delivers, Front;
    var q := n.relay.up[0];
    assert n.relay.up == [q] + n.relay.up[1..];
    if Undisturbed(next, h) {
      assert q != Unsub(h) ==> Undisturbed(n, h);
      assert StandsAt(next.relay, n.bindings, h, m) == StandsAt(n.relay, n.bindings, h, m);
      ServeKeeps(u.up, n.provider, q, h, m, StandsAt(n.relay, n.bindings, h, m), Request.Resync(h, m) in n.relay.up,
                 Request.Resync(h, m) in n.relay.up[1..]);
    }
  }

  lemma ServeUpSane(u: Setup, n: System)
    requires Sane(u, n)
    ensures Sane(u, Move1(u, n, ServeUp))
  {
    InvOrdered(u, n);
    hide Ordered, ServeRequest, Books, Honest, Serving, Relaying, Delivers, LinkOk, Converges;
    if n.relay.up != [] {
      var q := n.relay.up[0];
      AckAllowedHere(u.up, n.provider, n.taken, n.relay.up, u.ackingUp);
      ServedLink(u.up, n.provider, n.taken, n.relay.up, u.ackingUp);
      ServedWishes(u.up, n.relay.holds, n.relay.up, n.provider, n.taken);
      ServedServing(u.up, n.provider, q);
      ServeRequestAcks(u.up, n.provider, q);
      var c := ServeRequest(u.up, n.provider, q).value;
      ContractedSame(n.relay.holds, n.provider.locals, n.bindings, n.relay.holds, n.provider, c);
      RelayingUp(n.relay, n.relay.up[1..]);
    }
  }

  lemma ServeUpConverges(u: Setup, n: System, h: Hold, m: Name)
    requires Sane(u, n) && Converges(n, h, m)
    ensures Ordered(n.provider.out) && Ordered(n.relay.origin.out)
    ensures Converges(Move1(u, n, ServeUp), h, m)
  {
    InvOrdered(u, n);
    hide Ordered, ServeRequest, LinkOk, Serving, Relaying, Converges;
    if n.relay.up != [] {
      AckAllowedHere(u.up, n.provider, n.taken, n.relay.up, u.ackingUp);
      ServeUpOne(u, n, Move1(u, n, ServeUp), h, m);
    }
  }

  lemma RelayingUp(r: Relay, up: seq<Request>)
    requires Relaying(r)
    ensures Relaying(r.(up := up))
  {
  }

  // ---------------------------------------------------------------- a frame goes through the relay

  lemma {:induction false} HeadedPop(c: Conn, h: Hold)
    requires c.out.wire != [] && UnitFirst(c, h) && !IsShape(c.out.wire[0], h)
    ensures UnitFirst(c.(out := c.out.(wire := c.out.wire[1..])), h)
    ensures !IsState(c.out.wire[0], h)
  {
    if HasShape(c.out.wire, h) {
      var i :| 0 <= i < |c.out.wire| && IsShape(c.out.wire[i], h);
      assert IsShape(c.out.wire[1..][i - 1], h);
    }
  }

  lemma OnFrameBooks(cfg: Config, r: Relay, f: Frame, received: nat)
    requires Books(cfg, r.origin.out, received)
    ensures Books(cfg, OnFrame(cfg, r, f).origin.out, received)
    ensures SameAcks(r.origin.out, OnFrame(cfg, r, f).origin.out)
  {
    SendKeeps(cfg, r.origin.out, f);
    if (f.FullFrame? || f.OpsFrame?) && f.hold in r.holds {
      SendStateBooks(cfg, r.origin.out, f, true, received);
      SendStateAcks(cfg, r.origin.out, f, true);
      var g := r.holds[f.hold];
      var g1 := g.(awaiting := g.awaiting - {f.m}, urgent := g.urgent - {f.m});
      var e := SendState(cfg, r.origin.out, f, true);
      AskIs(r.(holds := r.holds[f.hold := g1]).(origin := r.origin.(out := e.out)), e.resyncs, f.hold, f.m);
    }
  }

  lemma ForwardShaped(holds: map<Hold, RelayHold>, up: seq<Request>, c: Conn)
    requires Wished(holds, up, c) && c.out.wire != [] && forall h :: h in holds ==> h in c.locals
    ensures var f := c.out.wire[0];
            (f.FullFrame? || f.OpsFrame?) && f.hold in holds ==> holds[f.hold].shaped
  {
    var f := c.out.wire[0];
    if (f.FullFrame? || f.OpsFrame?) && f.hold in holds && !holds[f.hold].shaped {
      HeadedPop(c, f.hold);
      assert false;
    }
  }

  lemma ForwardWishes(r: Relay, next: Relay, c: Conn)
    requires Wished(r.holds, r.up, c) && c.out.wire != [] && Forwarded(r, next, c.out.wire[0])
    ensures Wished(next.holds, next.up, c.(out := c.out.(wire := c.out.wire[1..])))
  {
    hide UnitFirst;
    var popped := c.(out := c.out.(wire := c.out.wire[1..]));
    forall h | h in next.holds && h in popped.locals
      ensures next.holds[h].shaped || UnitFirst(popped, h)
      ensures LastWish(next.up, h, popped.locals[h].wantsState) == next.holds[h].stateWanted
    {
      if !next.holds[h].shaped { HeadedPop(c, h); }
    }
  }

  /** The two links after a frame was forwarded. */
  lemma ForwardLinks(u: Setup, n: System)
    requires LinkOk(u.up, n.provider.out, n.taken, n.relay.up, u.ackingUp) && n.provider.out.wire != []
    requires LinkOk(u.down, n.relay.origin.out, n.received, n.down, u.ackingDown)
    ensures var r := OnFrame(u.down, n.relay, n.provider.out.wire[0]);
            && LinkOk(u.up, n.provider.out.(wire := n.provider.out.wire[1..]), n.taken + 1, r.up, u.ackingUp)
            && LinkOk(u.down, r.origin.out, n.received, n.down, u.ackingDown)
  {
    hide Books, Honest, OnFrame;
    var o, f := n.provider.out, n.provider.out.wire[0];
    var r := OnFrame(u.down, n.relay, f);
    OnFrameForwards(u.down, n.relay, f);
    OnFrameBooks(u.down, n.relay, f, n.received);
    PopBooks(u.up, o, n.relay.up, n.taken, u.ackingUp);
    HonestMore(o.(wire := o.wire[1..]), n.relay.up, r.up, n.taken + 1, u.ackingUp);
    HonestSame(n.relay.origin.out, r.origin.out, n.down, n.received, u.ackingDown);
  }

  lemma ForwardOne(u: Setup, n: System, popped: Conn, r: Relay, h: Hold, m: Name)
    requires Serving(n.provider) && Relaying(n.relay) && n.provider.out.wire != []
    requires h in n.relay.holds && h in n.bindings && h in n.provider.locals
    requires n.bindings[h].contract == n.provider.locals[h].contract
    requires Delivers(n.provider, h, m, StandsAt(n.relay, n.bindings, h, m), Request.Resync(h, m) in n.relay.up)
    requires var f := n.provider.out.wire[0];
             (f.FullFrame? || f.OpsFrame?) && f.hold in n.relay.holds ==> n.relay.holds[f.hold].shaped
    requires popped == n.provider.(out := n.provider.out.(wire := n.provider.out.wire[1..]))
    requires r == OnFrame(u.down, n.relay, n.provider.out.wire[0])
    ensures Delivers(popped, h, m, StandsAt(r, n.bindings, h, m), Request.Resync(h, m) in r.up)
  {
    hide Delivers, OnFrame, Relaying, Serving, Replaces;
    var f, k, lane := n.provider.out.wire[0], n.bindings[h].contract, LaneOf(n.bindings[h], m);
    var s := StandsAt(n.relay, n.bindings, h, m);
    LaneSound(n.bindings[h], m);
    StandsSound(n.relay, n.bindings, h, m);
    FlowMonotone(k, s, s, h, m, f);
    PopDelivers(n.provider, h, m, s, Flow(k, s, h, m, f), Request.Resync(h, m) in n.relay.up);
    OnFrameReplaces(u.down, n.relay, f, k, lane, h, m);
    ReplacesDelivers(popped, h, m, Flow(k, s, h, m, f), StandsAt(r, n.bindings, h, m),
                     Request.Resync(h, m) in n.relay.up, Request.Resync(h, m) in r.up);
  }

  lemma ForwardedKeys(r: Relay, next: Relay, f: Frame)
    requires Forwarded(r, next, f)
    ensures next.holds.Keys == r.holds.Keys && OnlyResets(r.up, next.up)
  {
  }

  lemma ServedHolds(holds: map<Hold, RelayHold>, locals: map<Hold, Local>, bindings: map<Hold, Binding>)
    requires Contracted(holds, locals, bindings)
    ensures forall h :: h in holds ==> h in locals
  {
  }

  lemma ForwardSane(u: Setup, n: System)
    requires Sane(u, n)
    ensures Sane(u, Move1(u, n, Forward))
  {
    hide Unit, Books;
    InvOrdered(u, n);
    ServedHolds(n.relay.holds, n.provider.locals, n.bindings);
    hide Ordered, Serving, Relaying, OnFrame, LinkOk, Wished, OnlyResets, Contracted, Forwarded;
    if n.provider.out.wire != [] {
      var f := n.provider.out.wire[0];
      ForwardShaped(n.relay.holds, n.relay.up, n.provider);
      OnFrameForwards(u.down, n.relay, f);
      OnFrameRelaying(u.down, n.relay, f);
      ForwardWishes(n.relay, OnFrame(u.down, n.relay, f), n.provider);
      ForwardLinks(u, n);
      PopServing(n.provider);
      ForwardedKeys(n.relay, OnFrame(u.down, n.relay, f), f);
      ContractedKeys(n.relay.holds, OnFrame(u.down, n.relay, f).holds, n.provider.locals, n.bindings);
    }
  }

  lemma ForwardConverges(u: Setup, n: System, h: Hold, m: Name)
    requires Sane(u, n) && Converges(n, h, m)
    ensures Ordered(n.provider.out) && Ordered(n.relay.origin.out)
    ensures Converges(Move1(u, n, Forward), h, m)
  {
    InvOrdered(u, n);
    hide Ordered, Serving, Relaying, Delivers, OnFrame, LinkOk, Wished, StandsAt, Consistent;
    if n.provider.out.wire != [] {
      var next := Move1(u, n, Forward);
      ForwardShaped(n.relay.holds, n.relay.up, n.provider);
      OnFrameForwards(u.down, n.relay, n.provider.out.wire[0]);
      if Undisturbed(next, h) {
        assert Undisturbed(n, h);
        ForwardOne(u, n, next.provider, next.relay, h, m);
      }
    }
  }

  // ---------------------------------------------------------------- the relay's link to the consumer

  // -------- objects served at the relay

  lemma {:induction false} AskKeepsOrigin(r: Relay, keys: seq<Key>)
    ensures AskResets(r, keys).origin == r.origin
    decreases |keys|
  {
    AskIs(r, keys, 0, "");
  }

  lemma ActOrigin(cfg: Config, r: Relay, act: Act)
    requires Ordered(r.origin.out)
    ensures RelayEnd.Act(cfg, r, act).origin == DoAct(cfg, r.origin, act)
  {
    match act
    case Change(x, n, ops) =>
      var e := Changed(cfg, r.origin, x, n, ops);
      AskKeepsOrigin(r.(origin := e.conn), e.resyncs);
    case SetValue(x, n, value) =>
      var e := Replaced(cfg, r.origin, x, n, value);
      AskKeepsOrigin(r.(origin := e.conn), e.resyncs);
    case _ =>
  }

  /** A local stream's frame may push relayed ones out. */
  lemma FeedRelaying(cfg: Config, r: Relay, f: Frame, c: Conn)
    requires Relaying(r) && (f.FullFrame? || f.OpsFrame?)
    requires f.hold in r.origin.locals && f.m in r.origin.locals[f.hold].feeds
    requires Serving(c) && c.out == SendState(cfg, r.origin.out, f, false).out && c.locals.Keys == r.origin.locals.Keys
    ensures Relaying(AskResets(r.(origin := c), SendState(cfg, r.origin.out, f, false).resyncs))
  {
    var e := SendState(cfg, r.origin.out, f, false);
    forall k | k in e.out.slots && k.StreamKey? && k.hold in r.holds
      ensures k in r.origin.out.slots && e.out.slots[k] == r.origin.out.slots[k]
    {
      SendStateIs(cfg, r.origin.out, f, false, k);
    }
    assert Relaying(r.(origin := c));
    forall k | k in e.resyncs ensures k !in e.out.slots { SendStateResyncs(cfg, r.origin.out, f, false, k); }
    AskRelaying(r.(origin := c), e.resyncs);
  }

  lemma FeedStands(cfg: Config, r: Relay, f: Frame, c: Conn, k: Contract, lane: Lane, h: Hold, m: Name)
    requires Relaying(r) && (f.FullFrame? || f.OpsFrame?) && h in r.holds && f.hold in r.origin.locals && Sound(lane)
    requires c.out == SendState(cfg, r.origin.out, f, false).out
    ensures var end := AskResets(r.(origin := c), SendState(cfg, r.origin.out, f, false).resyncs);
            Replaces(StreamAt(r, k, lane, h, m), StreamAt(end, k, lane, h, m),
                     Request.Resync(h, m) in r.up, Request.Resync(h, m) in end.up)
  {
    var e := SendState(cfg, r.origin.out, f, false);
    FrontOther(cfg, r, f, false, k, lane, h, m);
    AskIs(r.(origin := c), e.resyncs, h, m);
  }

  /** What the relay's own traffic does to the holds it relays. */
  lemma ActStands(cfg: Config, r: Relay, act: Act, k: Contract, lane: Lane, h: Hold, m: Name)
    requires Relaying(r) && h in r.holds && Sound(lane)
    ensures var end := RelayEnd.Act(cfg, r, act);
            Replaces(StreamAt(r, k, lane, h, m), StreamAt(end, k, lane, h, m),
                     Request.Resync(h, m) in r.up, Request.Resync(h, m) in end.up)
  {
    var c := r.origin;
    FrontSound(k, lane, c.out, h, m);
    match act
    case Change(x, n, ops) =>
      if WellFormed(ops) && x in c.locals && n in c.locals[x].feeds {
        FeedStands(cfg, r, OpsFrame(x, n, Encode(c.locals[x].feeds[n], ops).wire), Changed(cfg, c, x, n, ops).conn, k, lane, h, m);
      }
    case SetValue(x, n, value) =>
      if x in c.locals && n in c.locals[x].feeds {
        FeedStands(cfg, r, FullFrame(x, n, value), Replaced(cfg, c, x, n, value).conn, k, lane, h, m);
      }
    case Reshape(x, shape) =>
      if x in c.locals {
        UnitFront(cfg, r.(origin := c.(locals := c.locals[x := c.locals[x].(shape := Some(shape))])), x, k, lane, h, m);
      }
    case SendOther(text) => FrontUnrelated(k, lane, c.out, Send(cfg, c.out, OtherFrame(text)), [OtherFrame(text)], h, m);
  }

  lemma ActRelaying(cfg: Config, r: Relay, act: Act)
    requires Relaying(r)
    ensures Relaying(RelayEnd.Act(cfg, r, act))
  {
    DoActServing(cfg, r.origin, act);
    DoActAcks(cfg, r.origin, act);
    match act
    case Change(x, n, ops) => ChangeRelaying(cfg, r, x, n, ops);
    case SetValue(x, n, value) => SetValueRelaying(cfg, r, x, n, value);
    case Reshape(x, shape) => ReshapeRelaying(cfg, r, x, shape);
    case SendOther(text) => OtherRelaying(r, Send(cfg, r.origin.out, OtherFrame(text)));
  }

  lemma ChangeRelaying(cfg: Config, r: Relay, x: Hold, n: Name, ops: seq<Op>)
    requires Relaying(r) && Serving(DoAct(cfg, r.origin, DirectLink.Act.Change(x, n, ops)))
    ensures Relaying(RelayEnd.Act(cfg, r, DirectLink.Act.Change(x, n, ops)))
  {
    var c := r.origin;
    if WellFormed(ops) && x in c.locals && n in c.locals[x].feeds {
      FeedRelaying(cfg, r, OpsFrame(x, n, Encode(c.locals[x].feeds[n], ops).wire), Changed(cfg, c, x, n, ops).conn);
    }
  }

  lemma SetValueRelaying(cfg: Config, r: Relay, x: Hold, n: Name, value: Value)
    requires Relaying(r) && Serving(DoAct(cfg, r.origin, SetValue(x, n, value)))
    ensures Relaying(RelayEnd.Act(cfg, r, SetValue(x, n, value)))
  {
    var c := r.origin;
    if x in c.locals && n in c.locals[x].feeds {
      FeedRelaying(cfg, r, FullFrame(x, n, value), Replaced(cfg, c, x, n, value).conn);
    }
  }

  lemma ReshapeRelaying(cfg: Config, r: Relay, x: Hold, shape: Shape)
    requires Relaying(r) && Serving(DoAct(cfg, r.origin, Reshape(x, shape)))
    ensures Relaying(RelayEnd.Act(cfg, r, Reshape(x, shape)))
  {
    var c := r.origin;
    if x in c.locals {
      UnitFront(cfg, r.(origin := c.(locals := c.locals[x := c.locals[x].(shape := Some(shape))])), x,
                map[], Lane(false, None), 0, "");
    }
  }

  lemma OtherRelaying(r: Relay, o: Out)
    requires Relaying(r) && o.slots == r.origin.out.slots && o.order == r.origin.out.order
    ensures Relaying(r.(origin := r.origin.(out := o)))
  {
  }

  lemma ActForwards(cfg: Config, r: Relay, act: Act)
    requires Ordered(r.origin.out)
    ensures var end := RelayEnd.Act(cfg, r, act);
            end.holds.Keys == r.holds.Keys && OnlyResets(r.up, end.up)
            && forall x :: x in r.holds ==>
                 end.holds[x].stateWanted == r.holds[x].stateWanted && end.holds[x].shaped == r.holds[x].shaped
  {
    match act
    case Change(x, n, ops) =>
      var e := Changed(cfg, r.origin, x, n, ops);
      AskIs(r.(origin := e.conn), e.resyncs, 0, "");
    case SetValue(x, n, value) =>
      var e := Replaced(cfg, r.origin, x, n, value);
      AskIs(r.(origin := e.conn), e.resyncs, 0, "");
    case _ =>
  }

  lemma RelayActWishes(r: Relay, next: Relay, c: Conn)
    requires Wished(r.holds, r.up, c) && next.holds.Keys == r.holds.Keys && OnlyResets(r.up, next.up)
    requires forall x :: x in r.holds ==>
               next.holds[x].stateWanted == r.holds[x].stateWanted && next.holds[x].shaped == r.holds[x].shaped
    ensures Wished(next.holds, next.up, c)
  {
  }

  lemma RelayActLinks(u: Setup, n: System, act: Act)
    requires LinkOk(u.up, n.provider.out, n.taken, n.relay.up, u.ackingUp) && Relaying(n.relay)
    requires LinkOk(u.down, n.relay.origin.out, n.received, n.down, u.ackingDown)
    ensures var r := RelayEnd.Act(u.down, n.relay, act);
            && LinkOk(u.up, n.provider.out, n.taken, r.up, u.ackingUp)
            && LinkOk(u.down, r.origin.out, n.received, n.down, u.ackingDown)
  {
    var o := n.relay.origin.out;
    ServingOrdered(n.relay.origin);
    hide Books, Honest, OnlyResets, DoAct, RelayEnd.Act, Relaying;
    ActOrigin(u.down, n.relay, act);
    ActForwards(u.down, n.relay, act);
    DoActAcks(u.down, n.relay.origin, act);
    DoActOrderly(u.down, n.relay.origin, act, n.received, 0, true);
    HonestSame(o, RelayEnd.Act(u.down, n.relay, act).origin.out, n.down, n.received, u.ackingDown);
    HonestMore(n.provider.out, n.relay.up, RelayEnd.Act(u.down, n.relay, act).up, n.taken, u.ackingUp);
  }

  lemma RelayActOne(u: Setup, n: System, next: System, act: Act, h: Hold, m: Name)
    requires Relaying(n.relay) && Converges(n, h, m)
    requires next == n.(relay := RelayEnd.Act(u.down, n.relay, act))
    requires next.relay.holds.Keys == n.relay.holds.Keys && OnlyResets(n.relay.up, next.relay.up)
    ensures Converges(next, h, m)
  {
    hide Relaying, Delivers, RelayEnd.Act, Replaces, LaneOf, Front;
    if Undisturbed(next, h) {
      assert Undisturbed(n, h);
      LaneSound(n.bindings[h], m);
      ActStands(u.down, n.relay, act, n.bindings[h].contract, LaneOf(n.bindings[h], m), h, m);
      ReplacesDelivers(n.provider, h, m, StandsAt(n.relay, n.bindings, h, m), StandsAt(next.relay, n.bindings, h, m),
                       Request.Resync(h, m) in n.relay.up, Request.Resync(h, m) in next.relay.up);
    }
  }

  lemma RelayActSane(u: Setup, n: System, act: Act)
    requires Sane(u, n)
    ensures Sane(u, Move1(u, n, RelayAct(act)))
  {
    InvOrdered(u, n);
    assert Move1(u, n, RelayAct(act)) == n.(relay := RelayEnd.Act(u.down, n.relay, act));
    hide Ordered, RelayEnd.Act, Relaying, Serving, LinkOk, Wished, OnlyResets, Contracted, Move1;
    ActRelaying(u.down, n.relay, act);
    RelayActLinks(u, n, act);
    ActForwards(u.down, n.relay, act);
    RelayActWishes(n.relay, RelayEnd.Act(u.down, n.relay, act), n.provider);
    ContractedKeys(n.relay.holds, RelayEnd.Act(u.down, n.relay, act).holds, n.provider.locals, n.bindings);
  }

  lemma RelayActConverges(u: Setup, n: System, act: Act, h: Hold, m: Name)
    requires Sane(u, n) && Converges(n, h, m)
    ensures Ordered(n.provider.out) && Ordered(n.relay.origin.out)
    ensures Converges(Move1(u, n, RelayAct(act)), h, m)
  {
    InvOrdered(u, n);
    hide Ordered, RelayEnd.Act, Relaying, Serving, LinkOk, Wished, Converges, OnlyResets, Contracted;
    ActForwards(u.down, n.relay, act);
    RelayActOne(u, n, Move1(u, n, RelayAct(act)), act, h, m);
  }

  // -------- requests at the relay

  lemma AckDownAllowed(u: Setup, n: System)
    requires LinkOk(u.down, n.relay.origin.out, n.received, n.down, u.ackingDown) && NoResync(n.down) && n.down != []
    ensures Ordered(n.relay.origin.out) && OnRequest(u.down, n.relay, n.down[0]).Some? && !n.down[0].Resync?
  {
    assert n.down[0] in n.down;
    AckAllowedHere(u.down, n.relay.origin, n.received, n.down, u.ackingDown);
  }

  predicate RelayedWish(r: Relay, q: Request) {
    (q.Sub? || q.Unsub?) && q.hold in r.holds
  }

  lemma WantStateLinks(u: Setup, n: System, h: Hold, wanted: bool)
    requires LinkOk(u.up, n.provider.out, n.taken, n.relay.up, u.ackingUp) && h in n.relay.holds
    requires LinkOk(u.down, n.relay.origin.out, n.received, n.down, u.ackingDown)
    requires n.down != [] && (n.down[0].Sub? || n.down[0].Unsub?)
    ensures var r := WantState(n.relay, h, wanted);
            && LinkOk(u.up, n.provider.out, n.taken, r.up, u.ackingUp)
            && LinkOk(u.down, r.origin.out, n.received, n.down[1..], u.ackingDown)
  {
    var o := n.relay.origin.out;
    var doomed := KeysOfHold(o, h);
    HonestAppend(n.provider.out, n.relay.up, n.taken, u.ackingUp, if wanted then Sub(h) else Unsub(h));
    DropKeysKeeps(u.down, o, doomed, o.order);
    DropKeysIs(o, doomed, o.order);
    DropKeysSent(o, doomed, o.order);
    DropKeysAcks(o, doomed, o.order);
    HonestPop(o, WantState(n.relay, h, wanted).origin.out, n.down, n.received, u.ackingDown);
  }

  lemma ServeDownLinks(u: Setup, n: System)
    requires LinkOk(u.up, n.provider.out, n.taken, n.relay.up, u.ackingUp) && Relaying(n.relay)
    requires LinkOk(u.down, n.relay.origin.out, n.received, n.down, u.ackingDown)
    requires NoResync(n.down) && n.down != []
    requires Ordered(n.relay.origin.out) && OnRequest(u.down, n.relay, n.down[0]).Some? && !n.down[0].Resync?
    ensures var r := OnRequest(u.down, n.relay, n.down[0]).value;
            && LinkOk(u.up, n.provider.out, n.taken, r.up, u.ackingUp)
            && LinkOk(u.down, r.origin.out, n.received, n.down[1..], u.ackingDown)
            && NoResync(n.down[1..])
  {
    var q := n.down[0];
    assert n.down == [q] + n.down[1..];
    hide Books, Honest, WantState, ServeRequest;
    if RelayedWish(n.relay, q) {
      WantStateLinks(u, n, q.hold, q.Sub?);
    } else {
      ServedLink(u.down, n.relay.origin, n.received, n.down, u.ackingDown);
    }
  }

  lemma WantStateRelaying(cfg: Config, r: Relay, h: Hold, wanted: bool)
    requires Relaying(r) && h in r.holds
    ensures Relaying(WantState(r, h, wanted)) && WantState(r, h, wanted).holds.Keys == r.holds.Keys
  {
    DropHoldFront(cfg, r, h, map[], Lane(false, None), h + 1, "");
    var end := WantState(r, h, wanted);
    assert Ordered(end.origin.out);
    assert Serving(end.origin);
  }

  lemma WantStateWishes(r: Relay, h: Hold, wanted: bool, x: Hold, now: bool)
    requires h in r.holds && x in r.holds && LastWish(r.up, x, now) == r.holds[x].stateWanted
    ensures LastWish(WantState(r, h, wanted).up, x, now) == WantState(r, h, wanted).holds[x].stateWanted
    ensures WantState(r, h, wanted).holds[x].shaped == r.holds[x].shaped
  {
    LastWishAppend(r.up, x, now, if wanted then Sub(h) else Unsub(h));
  }

  /** Other holds' streams stand where they stood; so does this one's when its state starts. */
  lemma WantStateStands(cfg: Config, r: Relay, x: Hold, wanted: bool, k: Contract, lane: Lane, h: Hold, m: Name)
    requires Relaying(r) && x in r.holds && (h != x || wanted)
    ensures StreamAt(WantState(r, x, wanted), k, lane, h, m) == StreamAt(r, k, lane, h, m)
    ensures Request.Resync(h, m) in WantState(r, x, wanted).up <==> Request.Resync(h, m) in r.up
    ensures Unsub(h) in r.up ==> Unsub(h) in WantState(r, x, wanted).up
  {
    DropHoldFront(cfg, r, x, k, lane, h, m);
  }

  lemma ServeHereStands(cfg: Config, r: Relay, q: Request, k: Contract, lane: Lane, h: Hold, m: Name)
    requires Relaying(r) && h in r.holds && ServeHere(cfg, r, q).Some? && !q.Resync?
    ensures StreamAt(ServeHere(cfg, r, q).value, k, lane, h, m) == StreamAt(r, k, lane, h, m)
  {
    ServeHereFront(cfg, r, q, k, lane, h, m);
  }

  lemma WantStateHolds(r: Relay, c: Conn, h: Hold, wanted: bool)
    requires Wished(r.holds, r.up, c) && h in r.holds
    ensures var next := WantState(r, h, wanted);
            next.holds.Keys == r.holds.Keys && Wished(next.holds, next.up, c)
  {
    var next := WantState(r, h, wanted);
    assert next.holds.Keys == r.holds.Keys;
    hide WantState, UnitFirst;
    forall x | x in next.holds && x in c.locals
      ensures next.holds[x].shaped || UnitFirst(c, x)
      ensures LastWish(next.up, x, c.locals[x].wantsState) == next.holds[x].stateWanted
    {
      WantStateWishes(r, h, wanted, x, c.locals[x].wantsState);
    }
  }

  lemma ServeDownHolds(u: Setup, r: Relay, c: Conn, q: Request)
    requires Relaying(r) && Wished(r.holds, r.up, c) && Ordered(r.origin.out) && !q.Resync?
    requires OnRequest(u.down, r, q).Some?
    ensures var next := OnRequest(u.down, r, q).value;
            Relaying(next) && next.holds.Keys == r.holds.Keys && Wished(next.holds, next.up, c)
  {
    hide Wished;
    if RelayedWish(r, q) {
      hide WantState, Relaying;
      WantStateRelaying(u.down, r, q.hold, q.Sub?);
      WantStateHolds(r, c, q.hold, q.Sub?);
    } else {
      ServeHereFront(u.down, r, q, map[], Lane(false, None), 0, "");
    }
  }

  lemma StopIsAsked(r: Relay, h: Hold)
    requires h in r.holds && r.holds[h].stateWanted
    ensures Unsub(h) in WantState(r, h, false).up
  {
    assert WantState(r, h, false).up[|r.up|] == Unsub(h);
  }

  /** A stop goes up: it is on its way now, or was before, or state is off; nothing is claimed or streamed. */
  lemma StopGoesUp(n: System, next: System, h: Hold, m: Name)
    requires Serving(n.provider) && Wished(n.relay.holds, n.relay.up, n.provider)
    requires h in n.relay.holds && next.relay == WantState(n.relay, h, false) && next.provider == n.provider
    ensures Converges(next, h, m)
  {
    if Undisturbed(next, h) {
      if n.relay.holds[h].stateWanted { StopIsAsked(n.relay, h); }
      if h in n.provider.locals && n.provider.locals[h].wantsState { NoUnsubNoStop(n.relay.up, h, true); }
    }
  }

  lemma ServeDownStands(cfg: Config, r: Relay, q: Request, k: Contract, lane: Lane, h: Hold, m: Name)
    requires Relaying(r) && Ordered(r.origin.out) && OnRequest(cfg, r, q).Some?
    requires h in r.holds && q != Unsub(h) && !q.Resync?
    ensures var next := OnRequest(cfg, r, q).value;
            && StreamAt(next, k, lane, h, m) == StreamAt(r, k, lane, h, m)
            && (Request.Resync(h, m) in next.up <==> Request.Resync(h, m) in r.up)
            && (Unsub(h) in r.up ==> Unsub(h) in next.up)
  {
    if RelayedWish(r, q) {
      hide WantState, Front, Relaying;
      WantStateStands(cfg, r, q.hold, q.Sub?, k, lane, h, m);
    } else {
      hide Front, Relaying, ServeRequest;
      ServeHereStands(cfg, r, q, k, lane, h, m);
    }
  }

  lemma ServeDownOne(u: Setup, n: System, next: System, h: Hold, m: Name)
    requires Relaying(n.relay) && Converges(n, h, m) && n.down != [] && n.down[0] != Unsub(h) && h in n.relay.holds
    requires Ordered(n.relay.origin.out) && OnRequest(u.down, n.relay, n.down[0]).Some? && !n.down[0].Resync?
    requires next == n.(relay := OnRequest(u.down, n.relay, n.down[0]).value, down := n.down[1..])
    ensures Converges(next, h, m)
  {
    hide OnRequest, Delivers, Relaying, Front, LaneOf;
    assert n.down == [n.down[0]] + n.down[1..];
    if Undisturbed(next, h) {
      ServeDownStands(u.down, n.relay, n.down[0], n.bindings[h].contract, LaneOf(n.bindings[h], m), h, m);
      assert Undisturbed(n, h);
    }
  }

  lemma ServeDownSane(u: Setup, n: System)
    requires Sane(u, n)
    ensures Sane(u, Move1(u, n, ServeDown))
  {
    InvOrdered(u, n);
    hide Ordered, Serving, Relaying, LinkOk, Wished, OnRequest, Contracted;
    if n.down != [] {
      AckDownAllowed(u, n);
      ServeDownLinks(u, n);
      ServeDownHolds(u, n.relay, n.provider, n.down[0]);
      ContractedKeys(n.relay.holds, OnRequest(u.down, n.relay, n.down[0]).value.holds, n.provider.locals, n.bindings);
    }
  }

  lemma ServeDownConverges(u: Setup, n: System, h: Hold, m: Name)
    requires Sane(u, n) && Converges(n, h, m)
    ensures Ordered(n.provider.out) && Ordered(n.relay.origin.out)
    ensures Converges(Move1(u, n, ServeDown), h, m)
  {
    InvOrdered(u, n);
    hide Ordered, Serving, Relaying, LinkOk, Wished, OnRequest, Delivers, StandsAt, Contracted;
    if n.down != [] {
      AckDownAllowed(u, n);
      ServeDownHolds(u, n.relay, n.provider, n.down[0]);
      if h in n.relay.holds { ServeDownHere(u, n, h, m); }
    }
  }

  lemma ServeDownHere(u: Setup, n: System, h: Hold, m: Name)
    requires Serving(n.provider) && Relaying(n.relay) && Wished(n.relay.holds, n.relay.up, n.provider)
    requires Ordered(n.provider.out) && Ordered(n.relay.origin.out) && Converges(n, h, m) && h in n.relay.holds
    requires n.down != [] && OnRequest(u.down, n.relay, n.down[0]).Some? && !n.down[0].Resync?
    ensures Converges(Move1(u, n, ServeDown), h, m)
  {
    hide Ordered, Serving, Relaying, Wished, Converges;
    var next := Move1(u, n, ServeDown);
    if n.down[0] == Unsub(h) { StopGoesUp(n, next, h, m); } else { ServeDownOne(u, n, next, h, m); }
  }

  // -------- the consumer

  lemma ArriveOne(n: System, h: Hold, m: Name)
    requires h in n.bindings && Consistent(n.bindings[h]) && !n.bindings[h].status.Ended? && n.relay.origin.out.wire != []
    ensures var o := n.relay.origin.out;
            var b := Receive(n.bindings[h], h, o.wire[0]);
            var k := n.bindings[h].contract;
            && Below(Front(k, LaneOf(n.bindings[h], m), o, h, m), Front(k, LaneOf(b, m), o.(wire := o.wire[1..]), h, m))
            && Sound(Front(k, LaneOf(n.bindings[h], m), o, h, m))
            && Sound(Front(k, LaneOf(b, m), o.(wire := o.wire[1..]), h, m))
            && b.contract == k
  {
    var o, b := n.relay.origin.out, n.bindings[h];
    var f, k := o.wire[0], b.contract;
    var popped, after := o.(wire := o.wire[1..]), LaneOf(Receive(b, h, f), m);
    LaneReceives(b, h, m, f);
    ReceiveKeepsKind(b, h, f);
    LaneSound(b, m);
    LaneSound(Receive(b, h, f), m);
    FrontSound(k, LaneOf(b, m), o, h, m);
    FrontSound(k, after, popped, h, m);
    FlowMonotone(k, Stream(false, LaneOf(b, m)), Stream(false, LaneOf(b, m)), h, m, f);
    var mid := Flow(k, Stream(false, LaneOf(b, m)), h, m, f);
    FlowAllMonotone(k, mid, Stream(false, after), h, m, popped.wire);
    var slot := SlotOf(o, StreamKey(h, m));
    if slot.Some? && slot.value.StreamSlot? {
      FlowAllMonotone(k, FlowAll(k, mid, h, m, popped.wire), FlowAll(k, Stream(false, after), h, m, popped.wire), h, m,
                      SlotFrames(StreamKey(h, m), slot.value));
    }
  }

  lemma ArriveContracted(holds: map<Hold, RelayHold>, locals: map<Hold, Local>, bindings: map<Hold, Binding>, f: Frame)
    requires Contracted(holds, locals, bindings)
    ensures Contracted(holds, locals, Receives(bindings, f))
  {
    hide Receive, Consistent;
    forall h | h in bindings
      ensures Consistent(Receive(bindings[h], h, f)) && !Receive(bindings[h], h, f).status.Ended?
      ensures Receive(bindings[h], h, f).contract == bindings[h].contract
    {
      ReceiveConsistent(bindings[h], h, f);
      ReceiveKeepsKind(bindings[h], h, f);
    }
  }

  lemma ArriveFor(n: System, next: System, h: Hold, m: Name)
    requires Converges(n, h, m) && n.relay.origin.out.wire != []
    requires h in n.bindings ==> Consistent(n.bindings[h]) && !n.bindings[h].status.Ended?
    requires var o := n.relay.origin.out;
             && next.relay == n.relay.(origin := n.relay.origin.(out := o.(wire := o.wire[1..])))
             && next.bindings == Receives(n.bindings, o.wire[0]) && next.provider == n.provider && next.down == n.down
    ensures Converges(next, h, m)
  {
    hide Receive, LaneOf, Front, Delivers, Consistent;
    if Undisturbed(next, h) {
      ArriveOne(n, h, m);
      ReplacesDelivers(n.provider, h, m, StandsAt(n.relay, n.bindings, h, m), StandsAt(next.relay, next.bindings, h, m),
                       Request.Resync(h, m) in n.relay.up, Request.Resync(h, m) in n.relay.up);
    }
  }

  lemma PopLink(cfg: Config, o: Out, received: nat, requests: seq<Request>, acking: bool)
    requires LinkOk(cfg, o, received, requests, acking) && o.wire != []
    ensures LinkOk(cfg, o.(wire := o.wire[1..]), received + 1, requests, acking)
  {
    PopBooks(cfg, o, requests, received, acking);
    hide Books, Honest;
  }

  lemma ArrivedSane(u: Setup, n: System)
    requires Sane(u, n) && n.relay.origin.out.wire != []
    ensures Sane(u, Arrived(n))
  {
    var o := n.relay.origin.out;
    hide Serving, Relaying, LinkOk, Wished, Receives, Contracted, NoResync;
    PopRelaying(n.relay);
    PopLink(u.down, o, n.received, n.down, u.ackingDown);
    ArriveContracted(n.relay.holds, n.provider.locals, n.bindings, o.wire[0]);
  }

  lemma ArriveSane(u: Setup, n: System)
    requires Sane(u, n)
    ensures Sane(u, Move1(u, n, Arrive))
  {
    InvOrdered(u, n);
    hide Ordered, Sane;
    if n.relay.origin.out.wire != [] {
      ArrivedSane(u, n);
      assert Move1(u, n, Arrive) == Arrived(n);
    }
  }

  lemma ArriveConverges(u: Setup, n: System, h: Hold, m: Name)
    requires Sane(u, n) && Converges(n, h, m)
    ensures Ordered(n.provider.out) && Ordered(n.relay.origin.out)
    ensures Converges(Move1(u, n, Arrive), h, m)
  {
    InvOrdered(u, n);
    hide Ordered, Serving, Relaying, LinkOk, Wished, Receives, Converges, Consistent;
    if n.relay.origin.out.wire != [] { ArriveFor(n, Move1(u, n, Arrive), h, m); }
  }

  lemma PopRelaying(r: Relay)
    requires Relaying(r) && r.origin.out.wire != []
    ensures Relaying(r.(origin := r.origin.(out := r.origin.out.(wire := r.origin.out.wire[1..]))))
  {
    PopServing(r.origin);
  }

  lemma ViewChangeFor(n: System, next: System, h: Hold, e: Event, x: Hold, m: Name)
    requires Converges(n, x, m) && h in n.bindings && (e.AddView? || e.RemoveView?)
    requires Consistent(n.bindings[h]) && !n.bindings[h].status.Ended?
    requires var b := Handle(n.bindings[h], h, e);
             next == n.(bindings := n.bindings[h := b], down := n.down + Wish(h, n.bindings[h], b))
    ensures Converges(next, x, m)
  {
    hide Handle, Front, LaneOf, Delivers, Consistent;
    if Undisturbed(next, x) {
      ViewLaneAt(n.bindings, n.down, h, e, x, m);
      ViewKeepsKind(n.bindings[h], h, e);
    }
  }

  lemma ViewChangeContracted(holds: map<Hold, RelayHold>, locals: map<Hold, Local>, bindings: map<Hold, Binding>,
                             h: Hold, e: Event)
    requires Contracted(holds, locals, bindings) && h in bindings && (e.AddView? || e.RemoveView?)
    ensures Contracted(holds, locals, bindings[h := Handle(bindings[h], h, e)])
  {
    hide Consistent, Handle;
    HandleConsistent(bindings[h], h, e);
    ViewKeepsKind(bindings[h], h, e);
  }

  lemma NoResyncConcat(a: seq<Request>, b: seq<Request>)
    requires NoResync(a)
    ensures NoResync(b) ==> NoResync(a + b)
  {
  }

  lemma ViewChangeLink(u: Setup, n: System, h: Hold, e: Event)
    requires LinkOk(u.down, n.relay.origin.out, n.received, n.down, u.ackingDown) && NoResync(n.down) && h in n.bindings
    ensures var down := n.down + Wish(h, n.bindings[h], Handle(n.bindings[h], h, e));
            LinkOk(u.down, n.relay.origin.out, n.received, down, u.ackingDown) && NoResync(down)
  {
    hide Handle, Books, Honest;
    NoResyncConcat(n.down, Wish(h, n.bindings[h], Handle(n.bindings[h], h, e)));
    WishIsHonest(n.relay.origin.out, n.down, n.received, u.ackingDown, h, n.bindings[h], Handle(n.bindings[h], h, e));
  }

  lemma ViewChangeSane(u: Setup, n: System, h: Hold, e: Event)
    requires Sane(u, n)
    ensures Sane(u, Move1(u, n, ViewChange(h, e)))
  {
    hide Ordered, Serving, Relaying, LinkOk, NoResync, Wished, Handle, Contracted, Wish;
    if h in n.bindings && (e.AddView? || e.RemoveView?) {
      ContractedAt(n.relay.holds, n.provider.locals, n.bindings, h);
      ViewChangeLink(u, n, h, e);
      ViewChangeContracted(n.relay.holds, n.provider.locals, n.bindings, h, e);
    }
  }

  lemma ViewMove(u: Setup, n: System, h: Hold, e: Event)
    requires Ordered(n.provider.out) && Ordered(n.relay.origin.out)
    ensures Move1(u, n, ViewChange(h, e))
         == if h !in n.bindings || !(e.AddView? || e.RemoveView?) then n
            else n.(bindings := n.bindings[h := Handle(n.bindings[h], h, e)],
                    down := n.down + Wish(h, n.bindings[h], Handle(n.bindings[h], h, e)))
  {
    hide Handle, Wish, Ordered;
  }

  lemma ViewChangeConverges(u: Setup, n: System, h: Hold, e: Event, x: Hold, m: Name)
    requires Sane(u, n) && Converges(n, x, m)
    ensures Ordered(n.provider.out) && Ordered(n.relay.origin.out)
    ensures Converges(Move1(u, n, ViewChange(h, e)), x, m)
  {
    InvOrdered(u, n);
    hide Ordered, Serving, Relaying, LinkOk, Wished, Handle, Converges, Consistent, Contracted, Undisturbed, Wish, NoResync;
    ContractedAt(n.relay.holds, n.provider.locals, n.bindings, h);
    ViewMove(u, n, h, e);
    hide Sane, Move1;
    if h in n.bindings && (e.AddView? || e.RemoveView?) { ViewChangeFor(n, Move1(u, n, ViewChange(h, e)), h, e, x, m); }
  }

  // -------- acknowledgements

  lemma AckUpFor(n: System, next: System, h: Hold, m: Name)
    requires Converges(n, h, m) && next == n.(relay := n.relay.(up := n.relay.up + [Request.Ack(n.taken)]))
    ensures Converges(next, h, m)
  {
    if Undisturbed(next, h) {
      hide Delivers, Front;
      assert StandsAt(next.relay, n.bindings, h, m) == StandsAt(n.relay, n.bindings, h, m);
    }
  }

  lemma AckUpWishes(holds: map<Hold, RelayHold>, up: seq<Request>, c: Conn, q: Request)
    requires Wished(holds, up, c) && q.Ack?
    ensures Wished(holds, up + [q], c)
  {
    hide UnitFirst;
    forall h | h in holds && h in c.locals
      ensures LastWish(up + [q], h, c.locals[h].wantsState) == holds[h].stateWanted
    {
      LastWishAppend(up, h, c.locals[h].wantsState, q);
    }
  }

  lemma AckUpSane(u: Setup, n: System)
    requires Sane(u, n)
    ensures Sane(u, Move1(u, n, AckUp))
  {
    InvOrdered(u, n);
    hide Ordered, Serving, Relaying, Books, Honest, Wished, Converges, Consistent;
    if u.ackingUp {
      var q := Request.Ack(n.taken);
      HonestAppend(n.provider.out, n.relay.up, n.taken, u.ackingUp, q);
      AckUpWishes(n.relay.holds, n.relay.up, n.provider, q);
      RelayingUp(n.relay, n.relay.up + [q]);
    }
  }

  lemma AckUpConverges(u: Setup, n: System, h: Hold, m: Name)
    requires Sane(u, n) && Converges(n, h, m)
    ensures Ordered(n.provider.out) && Ordered(n.relay.origin.out)
    ensures Converges(Move1(u, n, AckUp), h, m)
  {
    InvOrdered(u, n);
    hide Sane, Ordered, Converges;
    if u.ackingUp { AckUpFor(n, Move1(u, n, AckUp), h, m); }
  }

  lemma AckDownConverges(u: Setup, n: System, h: Hold, m: Name)
    requires Sane(u, n) && Converges(n, h, m)
    ensures Ordered(n.provider.out) && Ordered(n.relay.origin.out)
    ensures Converges(Move1(u, n, AckDown), h, m)
  {
    InvOrdered(u, n);
    hide Sane, Ordered, Delivers;
  }

  lemma AckDownSane(u: Setup, n: System)
    requires Sane(u, n)
    ensures Sane(u, Move1(u, n, AckDown))
  {
    InvOrdered(u, n);
    hide Ordered, Serving, Relaying, Books, Honest, Wished, Consistent, Delivers;
    if u.ackingDown {
      HonestAppend(n.relay.origin.out, n.down, n.received, u.ackingDown, Request.Ack(n.received));
    }
  }

  // ---------------------------------------------------------------- every run

  lemma MoveSane(u: Setup, n: System, s: Move)
    requires Sane(u, n)
    ensures Ordered(n.provider.out) && Ordered(n.relay.origin.out)
    ensures Sane(u, Move1(u, n, s))
  {
    InvOrdered(u, n);
    hide Sane, Ordered;
    match s
    case ProviderAct(act) => ProvideSane(u, n, act);
    case ServeUp => ServeUpSane(u, n);
    case Forward => ForwardSane(u, n);
    case RelayAct(act) => RelayActSane(u, n, act);
    case ServeDown => ServeDownSane(u, n);
    case Arrive => ArriveSane(u, n);
    case AckUp => AckUpSane(u, n);
    case AckDown => AckDownSane(u, n);
    case ViewChange(h, e) => ViewChangeSane(u, n, h, e);
  }

  lemma MoveConverges(u: Setup, n: System, s: Move, h: Hold, m: Name)
    requires Sane(u, n) && Converges(n, h, m)
    ensures Ordered(n.provider.out) && Ordered(n.relay.origin.out)
    ensures Converges(Move1(u, n, s), h, m)
  {
    InvOrdered(u, n);
    hide Sane, Ordered, Converges;
    match s
    case ProviderAct(act) => ProvideConverges(u, n, act, h, m);
    case ServeUp => ServeUpConverges(u, n, h, m);
    case Forward => ForwardConverges(u, n, h, m);
    case RelayAct(act) => RelayActConverges(u, n, act, h, m);
    case ServeDown => ServeDownConverges(u, n, h, m);
    case Arrive => ArriveConverges(u, n, h, m);
    case AckUp => AckUpConverges(u, n, h, m);
    case AckDown => AckDownConverges(u, n, h, m);
    case ViewChange(x, e) => ViewChangeConverges(u, n, x, e, h, m);
  }

  lemma MoveKeeps(u: Setup, n: System, s: Move)
    requires Inv(u, n)
    ensures Ordered(n.provider.out) && Ordered(n.relay.origin.out)
    ensures Inv(u, Move1(u, n, s))
  {
    MoveSane(u, n, s);
    hide Sane, Ordered, Converges, Move1;
    forall h, m ensures Converges(Move1(u, n, s), h, m) { MoveConverges(u, n, s, h, m); }
  }

  ghost function Run(u: Setup, n: System, moves: seq<Move>): System
    requires Inv(u, n)
    ensures Inv(u, Run(u, n, moves))
    decreases |moves|
  {
    if moves == [] then n
    else
      MoveKeeps(u, n, moves[0]);
      Run(u, Move1(u, n, moves[0]), moves[1..])
  }

  const QUIET_OUT := Out(None, 0, 0, [], 0, map[], [], 0, [])

  /** Both links just opened: nothing was sent, holds are as they were forwarded. */
  ghost predicate Opened(u: Setup, n: System) {
    && n.provider.out == QUIET_OUT && n.relay.origin.out == QUIET_OUT
    && (forall h :: h in n.provider.locals ==> n.provider.locals[h].feeds == map[] && !n.provider.locals[h].unitSent)
    && (forall h :: h in n.relay.origin.locals ==>
          n.relay.origin.locals[h].feeds == map[] && !n.relay.origin.locals[h].unitSent)
    && n.relay.origin.locals.Keys !! n.relay.holds.Keys
    && (forall h :: h in n.relay.holds ==>
          && h in n.provider.locals && h in n.bindings && n.bindings[h].contract == n.provider.locals[h].contract
          && n.relay.holds[h].stateWanted == n.provider.locals[h].wantsState)
    && (forall h :: h in n.bindings ==> Consistent(n.bindings[h]) && !n.bindings[h].status.Ended?)
    && n.relay.up == [Request.Hello(u.ackingUp)] && n.down == [Request.Hello(u.ackingDown)]
    && n.taken == 0 && n.received == 0 && !n.broken
  }

  lemma OpenedLink(cfg: Config, o: Out, requests: seq<Request>, acking: bool)
    requires o == QUIET_OUT && requests == [Request.Hello(acking)]
    ensures LinkOk(cfg, o, 0, requests, acking)
  {
    assert requests[1..] == [] && AcksFrom(0, requests, 0);
  }

  lemma OpenedWishes(holds: map<Hold, RelayHold>, up: seq<Request>, c: Conn, acking: bool)
    requires up == [Request.Hello(acking)] && c.out == QUIET_OUT
    requires forall h :: h in c.locals ==> c.locals[h].feeds == map[] && !c.locals[h].unitSent
    requires forall h :: h in holds ==> h in c.locals && holds[h].stateWanted == c.locals[h].wantsState
    ensures Wished(holds, up, c)
  {
    assert up[1..] == [];
  }

  lemma OpenedServing(u: Setup, n: System)
    requires Opened(u, n)
    ensures Serving(n.provider) && Relaying(n.relay) && Contracted(n.relay.holds, n.provider.locals, n.bindings)
  {
    hide Consistent;
  }

  lemma OpenedSane(u: Setup, n: System)
    requires Opened(u, n)
    ensures Sane(u, n)
  {
    OpenedServing(u, n);
    hide Serving, Relaying, Contracted;
    OpenedLink(u.up, n.provider.out, n.relay.up, u.ackingUp);
    OpenedLink(u.down, n.relay.origin.out, n.down, u.ackingDown);
    OpenedWishes(n.relay.holds, n.relay.up, n.provider, u.ackingUp);
    hide LinkOk, Wished, Consistent, UnitFirst, Books, Honest;
    assert forall q :: q in n.down ==> q == Request.Hello(u.ackingDown);
  }

  lemma OpenedInv(u: Setup, n: System)
    requires Opened(u, n)
    ensures Inv(u, n)
  {
    OpenedSane(u, n);
  }

  /**
   Two-hop convergence.  Over every run: unless a stop is on its way, the consumer's replica, followed by the
   frames on its link, by what waits at the relay, by the frames on the provider's link and by what waits
   there (a lazy slot standing for a reset to the current value), is the provider's value; while the relay
   awaits a reset, ops are skipped, and then a reset is on its way up as a request or down as a frame.
   No acknowledgement is ever a violation, and neither link keeps more waiting than its cap.
   */
  lemma TwoHopConvergence(u: Setup, n: System, moves: seq<Move>, h: Hold, m: Name)
    requires Opened(u, n)
    ensures Inv(u, n)
    ensures var end := Run(u, n, moves);
            && !end.broken
            && end.provider.out.pendingBytes <= u.up.cap && end.relay.origin.out.pendingBytes <= u.down.cap
            && (Undisturbed(end, h) && m in end.provider.locals[h].feeds ==>
                  var l := end.provider.locals[h];
                  var slot := SlotOf(end.provider.out, StreamKey(h, m));
                  var sent := FlowAll(l.contract, StandsAt(end.relay, end.bindings, h, m), h, m, end.provider.out.wire);
                  var last := Last(l.contract, sent, h, m, slot, ValueOf(end.provider, h, m));
                  && sent.lane.open
                  && (last.awaiting ==> Request.Resync(h, m) in end.relay.up)
                  && (!last.awaiting ==>
                        && last.lane.replica.Some?
                        && last.lane.replica.value.value == ValueOf(end.provider, h, m)
                        && (!IsLazy(slot) ==> Synced(l.feeds[m], last.lane.replica.value.paths))))
  {
    OpenedInv(u, n);
    var end := Run(u, n, moves);
    assert Converges(end, h, m);
    if Undisturbed(end, h) && m in end.provider.locals[h].feeds {
      DeliversAtLast(end.provider, h, m, StandsAt(end.relay, end.bindings, h, m), Request.Resync(h, m) in end.relay.up);
    }
  }

  /**
   When both links and both ends have nothing left to move, the consumer holds the provider's value, and once the
   binding is hydrated and waits for no shape a reader gets it.
   */
  lemma QuietMeansEqual(u: Setup, n: System, h: Hold, m: Name)
    requires Inv(u, n) && Undisturbed(n, h) && m in n.provider.locals[h].feeds
    requires n.provider.out.wire == [] && n.provider.out.slots == map[] && n.relay.up == []
    requires n.relay.origin.out.wire == [] && n.relay.origin.out.slots == map[]
    ensures Target(n.bindings[h], m).Some? && Target(n.bindings[h], m).value.value == ValueOf(n.provider, h, m)
    ensures n.bindings[h].hydrated && n.bindings[h].pending.None? ==> ReadOf(n.bindings[h], m) == Some(ValueOf(n.provider, h, m))
  {
    assert Converges(n, h, m);
  }
}
