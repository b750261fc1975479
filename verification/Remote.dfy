/**
 A binding at the consumer: views come and go, frames arrive, links are lost, and a shape takes effect when nothing of
 it is missing any more.
 */
module Remote {
  import opened DeltaCodec
  import opened Wire
  import opened Wrappers

  /** The consumer's copy of a member, and how far its stream is decoded. */
  datatype Replica = Replica(value: Value, paths: Decoder)

  function Fresh(value: Value): Replica {
    Replica(value, FRESH_DECODER)
  }

  /** A batch that is rejected leaves the value as it was. */
  function Feed(r: Replica, wire: seq<WireOp>): Replica {
    var d := Decode(r.paths, wire);
    Replica(if d.ok then ApplyAll(r.value, d.ops) else r.value, d.paths)
  }

  datatype Pending = Pending(shape: Shape, missing: set<Name>, values: map<Name, Replica>)

  datatype Status = Loading | Live | Ended

  datatype Binding = Binding(
    contract: Contract,
    status: Status,
    shape: Option<Shape>,
    hydrated: bool,
    stateOn: bool,
    views: map<nat, bool>,
    members: map<Name, Replica>,
    pending: Option<Pending>)

  predicate InVariant(b: Binding, name: Name) {
    b.shape.Some? && name in VariantState(b.contract, b.shape.value.variant)
  }

  /** What a reader gets: nothing before hydration or outside the variant. */
  function ReadOf(b: Binding, m: Name): Option<Value> {
    if !b.status.Ended? && b.hydrated && InVariant(b, m) && m in b.members then Some(b.members[m].value) else None
  }

  // ---------------------------------------------------------------- transitions

  function Applied(b: Binding): Binding
    requires b.pending.Some?
  {
    var p := b.pending.value;
    var wanted := Wanted(b.contract, p.shape);
    var kept := map n | n in b.members && n in wanted :: b.members[n];
    var arrived := map n | n in p.values && n in wanted :: p.values[n];
    var members := kept + arrived;
    b.(pending := None, shape := Some(p.shape), members := members,
       hydrated := b.stateOn && wanted <= members.Keys, status := Live)
  }

  /** A new shape waits; with state on it also waits for the members of it that are owed a snapshot. */
  function Shaped(b: Binding, shape: Shape, listed: seq<Name>): Binding {
    if b.status.Ended? then b
    else
      var wanted := Wanted(b.contract, shape);
      var owed := (set n | n in listed) + (if b.pending.Some? then b.pending.value.missing else {});
      var missing := if b.stateOn then owed * wanted else {};
      var values := if b.pending.Some? then b.pending.value.values else map[];
      var next := b.(pending := Some(Pending(shape, missing, values)));
      if missing == {} then Applied(next) else next
  }

  /** A snapshot or reset of member `m`. */
  function Arrived(b: Binding, m: Name, value: Value): Binding {
    if b.status.Ended? then b
    else if b.pending.Some? && (m in b.pending.value.missing || m in b.pending.value.values) then
      var p := b.pending.value;
      var next := b.(pending := Some(p.(values := p.values[m := Fresh(value)], missing := p.missing - {m})));
      if next.pending.value.missing == {} then Applied(next) else next
    else if InVariant(b, m) then b.(members := b.members[m := Fresh(value)])
    else b
  }

  /** Ops of member `m`: they go to the replica that waits for its shape, else to the current one. */
  function Edited(b: Binding, m: Name, wire: seq<WireOp>): Binding {
    if b.status.Ended? then b
    else if b.pending.Some? && m in b.pending.value.values then
      var p := b.pending.value;
      b.(pending := Some(p.(values := p.values[m := Feed(p.values[m], wire)])))
    else if m in b.members then b.(members := b.members[m := Feed(b.members[m], wire)])
    else b
  }

  predicate StateViews(b: Binding) {
    exists v :: v in b.views && b.views[v]
  }

  /** State is on if some view wants it; without views it stays as it was. */
  function SyncState(b: Binding): Binding {
    if b.status.Ended? || b.views == map[] || StateViews(b) == b.stateOn then b
    else if !b.stateOn then b.(stateOn := true)
    else
      b.(stateOn := false, hydrated := false, members := map[],
         pending := if b.pending.Some? then Some(b.pending.value.(missing := {})) else None)
  }

  /** A view that is there stays as it is: what it wants never changes. */
  function Joined(views: map<nat, bool>, view: nat, wantsState: bool): map<nat, bool> {
    if view in views then views else views[view := wantsState]
  }

  function ViewAdded(b: Binding, view: nat, wantsState: bool): Binding {
    SyncState(b.(views := Joined(b.views, view, wantsState)))
  }

  function ViewRemoved(b: Binding, view: nat): Binding {
    if view in b.views then SyncState(b.(views := b.views - {view})) else b
  }

  /** The link went down: the values stay readable while the binding waits for a new hold. */
  function Detached(b: Binding): Binding {
    if b.status.Ended? then b else b.(pending := None, status := Loading)
  }

  /** A new hold says what the views want. */
  function Bound(b: Binding): Binding {
    b.(stateOn := if b.views == map[] then b.stateOn else StateViews(b))
  }

  function Receive(b: Binding, hold: Hold, f: Frame): Binding {
    if !About(f, hold) then b
    else match f
      case ShapeFrame(_, shape, listed) => Shaped(b, shape, listed)
      case FullFrame(_, m, value) => Arrived(b, m, value)
      case OpsFrame(_, m, ops) => Edited(b, m, ops)
      case OtherFrame(_) => b
  }

  // ---------------------------------------------------------------- hydration

  /** What the binding told the provider is what its views want. */
  ghost predicate ViewsSynced(b: Binding) {
    !b.status.Ended? && b.views != map[] ==> b.stateOn == StateViews(b)
  }

  /** Members belong to the applied variant, and a hydrated binding has every state member of its shape. */
  ghost predicate Consistent(b: Binding) {
    && (forall n :: n in b.members ==> InVariant(b, n))
    && (b.hydrated ==> b.shape.Some? && Wanted(b.contract, b.shape.value) <= b.members.Keys)
    && (b.hydrated ==> b.stateOn)
    && ViewsSynced(b)
  }

  datatype Event =
    | Got(frame: Frame)
    | AddView(view: nat, wantsState: bool)
    | RemoveView(view: nat)
    | LinkLost
    | Reheld

  function Handle(b: Binding, hold: Hold, e: Event): Binding {
    match e
    case Got(f) => Receive(b, hold, f)
    case AddView(view, wantsState) => ViewAdded(b, view, wantsState)
    case RemoveView(view) => ViewRemoved(b, view)
    case LinkLost => Detached(b)
    case Reheld => if b.status.Ended? then b else Bound(b)
  }

  function HandleAll(b: Binding, hold: Hold, events: seq<Event>): Binding
    decreases |events|
  {
    if events == [] then b else HandleAll(Handle(b, hold, events[0]), hold, events[1..])
  }

  lemma AppliedConsistent(b: Binding)
    requires b.pending.Some? && ViewsSynced(b) && !b.status.Ended?
    ensures Consistent(Applied(b))
  {
    var next := Applied(b);
    forall n | n in next.members ensures InVariant(next, n) {
      assert n in Wanted(b.contract, b.pending.value.shape);
    }
  }

  lemma ShapedConsistent(b: Binding, shape: Shape, listed: seq<Name>)
    requires Consistent(b)
    ensures Consistent(Shaped(b, shape, listed))
  {
    if !b.status.Ended? {
      var owed := (set n | n in listed) + (if b.pending.Some? then b.pending.value.missing else {});
      var missing := if b.stateOn then owed * Wanted(b.contract, shape) else {};
      var values := if b.pending.Some? then b.pending.value.values else map[];
      AppliedConsistent(b.(pending := Some(Pending(shape, missing, values))));
    }
  }

  lemma ArrivedConsistent(b: Binding, m: Name, value: Value)
    requires Consistent(b)
    ensures Consistent(Arrived(b, m, value))
  {
    if !b.status.Ended? && b.pending.Some? {
      var p := b.pending.value;
      AppliedConsistent(b.(pending := Some(p.(values := p.values[m := Fresh(value)], missing := p.missing - {m}))));
    }
  }

  lemma EditedConsistent(b: Binding, m: Name, ops: seq<WireOp>)
    requires Consistent(b)
    ensures Consistent(Edited(b, m, ops))
  {
  }

  lemma ReceiveConsistent(b: Binding, hold: Hold, f: Frame)
    requires Consistent(b)
    ensures Consistent(Receive(b, hold, f))
  {
    hide Consistent, Shaped, Arrived, Edited;
    match f
    case ShapeFrame(_, shape, listed) => ShapedConsistent(b, shape, listed);
    case FullFrame(_, m, value) => ArrivedConsistent(b, m, value);
    case OpsFrame(_, m, ops) => EditedConsistent(b, m, ops);
    case OtherFrame(_) =>
  }

  lemma HandleConsistent(b: Binding, hold: Hold, e: Event)
    requires Consistent(b)
    ensures Consistent(Handle(b, hold, e))
  {
    match e
    case Got(f) => ReceiveConsistent(b, hold, f);
    case _ =>
  }

  /** Over every run: whatever units, resets, view changes, link losses and new holds come, `hydrated` is honest. */
  lemma {:induction false} HydratedIsHonest(b: Binding, hold: Hold, events: seq<Event>)
    requires Consistent(b)
    ensures var end := HandleAll(b, hold, events);
            && Consistent(end)
            && (end.hydrated ==> (end.shape.Some? && Wanted(end.contract, end.shape.value) <= end.members.Keys))
    decreases |events|
  {
    if events != [] {
      HandleConsistent(b, hold, events[0]);
      HydratedIsHonest(Handle(b, hold, events[0]), hold, events[1..]);
    }
  }

  // ---------------------------------------------------------------- nothing is applied early

  /** No event brings a snapshot of `n` or a shape without it, and the link stays. */
  predicate Owing(c: Contract, hold: Hold, events: seq<Event>, n: Name) {
    forall i :: 0 <= i < |events| ==>
      && !events[i].LinkLost? && !events[i].Reheld?
      && (events[i].Got? && About(events[i].frame, hold) ==>
            && (events[i].frame.ShapeFrame? ==> n in Wanted(c, events[i].frame.shape))
            && (events[i].frame.FullFrame? ==> events[i].frame.m != n))
  }

  predicate StaysOn(b: Binding, hold: Hold, events: seq<Event>)
    decreases |events|
  {
    b.stateOn && (events == [] || StaysOn(Handle(b, hold, events[0]), hold, events[1..]))
  }

  lemma MissingBlocksOne(b: Binding, hold: Hold, f: Frame, n: Name)
    requires !b.status.Ended? && b.stateOn && b.pending.Some? && n in b.pending.value.missing
    requires About(f, hold) ==> (f.ShapeFrame? ==> n in Wanted(b.contract, f.shape)) && (f.FullFrame? ==> f.m != n)
    ensures var next := Receive(b, hold, f);
            && next.contract == b.contract && next.shape == b.shape && next.stateOn && !next.status.Ended?
            && next.pending.Some? && n in next.pending.value.missing
  {
    var missing := b.pending.value.missing;
    match f
    case ShapeFrame(_, shape, listed) =>
      if About(f, hold) { assert n in ((set x | x in listed) + missing) * Wanted(b.contract, shape); }
    case FullFrame(_, m, _) => assert About(f, hold) ==> n in missing - {m};
    case _ =>
  }

  lemma ViewKeepsPending(b: Binding, hold: Hold, e: Event)
    requires (e.AddView? || e.RemoveView?) && !b.status.Ended?
    ensures var next := Handle(b, hold, e);
            && !next.status.Ended? && next.contract == b.contract && next.shape == b.shape
            && next.pending.Some? == b.pending.Some?
            && (b.pending.Some? ==>
                  && next.pending.value.shape == b.pending.value.shape
                  && next.pending.value.missing == (if b.stateOn && !next.stateOn then {} else b.pending.value.missing))
  {
  }

  /**
   Whatever frames and view changes come, as long as state stays on: no shape is applied before a wanted snapshot
   that is missing has come.
   */
  lemma {:induction false} WaitsForSnapshots(b: Binding, hold: Hold, events: seq<Event>, n: Name)
    requires !b.status.Ended? && b.pending.Some? && n in b.pending.value.missing
    requires StaysOn(b, hold, events) && Owing(b.contract, hold, events, n)
    ensures var end := HandleAll(b, hold, events);
            end.shape == b.shape && end.pending.Some? && n in end.pending.value.missing
    decreases |events|
  {
    if events != [] {
      var e := events[0];
      if e.Got? { MissingBlocksOne(b, hold, e.frame, n); } else { ViewKeepsPending(b, hold, e); }
      assert forall i :: 0 <= i < |events[1..]| ==> events[1..][i] == events[i + 1];
      hide Handle;
      WaitsForSnapshots(Handle(b, hold, e), hold, events[1..], n);
    }
  }

  /**
   View changes in between break that: when the last view that wants state leaves while another stays, what is missing
   is cleared, and once a third has turned state on again a repeated value of a member that did come applies the shape
   although `x` never came.  The binding is then live but not hydrated.
   */
  lemma ToggleAppliesEarly(b: Binding, view: nat, other: nat, third: nat, x: Name, y: Name, value: Value)
    requires !b.status.Ended? && b.stateOn && b.pending.Some? && b.views == map[view := true]
    requires view != other && view != third && other != third
    requires x in b.pending.value.missing && x in Wanted(b.contract, b.pending.value.shape)
    requires x !in b.pending.value.values && y in b.pending.value.values
    ensures var end := Arrived(ViewAdded(ViewRemoved(ViewAdded(b, other, false), view), third, true), y, value);
            end.shape == Some(b.pending.value.shape) && end.status == Live && !end.hydrated && x !in end.members
  {
    var both := ViewAdded(b, other, false);
    assert both.views[view] && StateViews(both) && both == b.(views := both.views);
    var off := ViewRemoved(both, view);
    assert both.views - {view} == map[other := false];
    assert !StateViews(both.(views := map[other := false])) && other in off.views;
    assert !off.stateOn;
    var on := ViewAdded(off, third, true);
    assert on.views[third];
    assert on.stateOn && on.pending.value.missing == {} && on.members == map[];
  }

  // ---------------------------------------------------------------- exactly when a shape is applied early

  predicate IsUnit(hold: Hold, e: Event) {
    e.Got? && About(e.frame, hold) && e.frame.ShapeFrame?
  }

  predicate IsSnapshot(hold: Hold, e: Event) {
    e.Got? && About(e.frame, hold) && e.frame.FullFrame?
  }

  /** The wanted snapshots that units of this hold listed and that have not come, as `e` leaves them. */
  function StillOwed(b: Binding, owed: set<Name>, hold: Hold, e: Event): set<Name> {
    if IsUnit(hold, e) then (owed + set n | n in e.frame.listed) * Wanted(b.contract, e.frame.shape)
    else if IsSnapshot(hold, e) then owed - {e.frame.m}
    else owed
  }

  /** `e` makes the binding apply a shape. */
  predicate Applies(b: Binding, hold: Hold, e: Event) {
    !b.status.Ended? && Handle(b, hold, e).pending.None? && (IsUnit(hold, e) || (IsSnapshot(hold, e) && b.pending.Some?))
  }

  /** A shape is applied while state is on and a snapshot is still owed. */
  predicate Early(b: Binding, owed: set<Name>, hold: Hold, e: Event) {
    b.stateOn && Applies(b, hold, e) && StillOwed(b, owed, hold, e) != {}
  }

  /** What is owed after `e`: an applied shape and a lost link settle it. */
  function OwedAfter(b: Binding, owed: set<Name>, hold: Hold, e: Event): set<Name> {
    if e.LinkLost? || Applies(b, hold, e) then {} else StillOwed(b, owed, hold, e)
  }

  predicate NoneEarly(b: Binding, owed: set<Name>, hold: Hold, events: seq<Event>)
    decreases |events|
  {
    events != [] ==>
      && !Early(b, owed, hold, events[0])
      && NoneEarly(Handle(b, hold, events[0]), OwedAfter(b, owed, hold, events[0]), hold, events[1..])
  }

  /** What the consumer's side does: everything but the frames that arrive. */
  function OwnPart(events: seq<Event>): seq<Event> {
    if events == [] then [] else (if events[0].Got? then [] else [events[0]]) + OwnPart(events[1..])
  }

  /** State is stopped and started again on one link.  `stopped`: it was stopped since the link came up. */
  predicate Restarts(b: Binding, hold: Hold, own: seq<Event>, stopped: bool)
    decreases |own|
  {
    if own == [] then false
    else
      var next := Handle(b, hold, own[0]);
      if own[0].LinkLost? then Restarts(next, hold, own[1..], false)
      else if b.stateOn && !next.stateOn then Restarts(next, hold, own[1..], true)
      else if stopped && !b.stateOn && next.stateOn then true
      else Restarts(next, hold, own[1..], stopped)
  }

  /** Frames do not change what the views want. */
  predicate SameWish(a: Binding, b: Binding) {
    a.views == b.views && a.stateOn == b.stateOn && !a.status.Ended? && !b.status.Ended?
  }

  /** As long as nothing was restarted, what is missing is what is owed. */
  predicate Remembers(b: Binding, owed: set<Name>, stopped: bool) {
    && (b.pending.None? ==> owed == {})
    && (b.stateOn ==> !stopped && (b.pending.Some? ==> b.pending.value.missing == owed != {}))
    && (!b.stateOn && !stopped ==> b.pending.None?)
  }

  lemma FrameRemembers(b: Binding, owed: set<Name>, hold: Hold, f: Frame, stopped: bool)
    requires Remembers(b, owed, stopped) && !b.status.Ended?
    ensures !Early(b, owed, hold, Got(f))
    ensures Remembers(Handle(b, hold, Got(f)), OwedAfter(b, owed, hold, Got(f)), stopped)
    ensures SameWish(b, Handle(b, hold, Got(f)))
  {
    if About(f, hold) {
      match f
      case ShapeFrame(_, shape, listed) => UnitRemembers(b, owed, hold, shape, listed, stopped);
      case FullFrame(_, m, value) => SnapshotRemembers(b, owed, hold, m, value, stopped);
      case _ =>
    }
    hide Shaped, Arrived;
  }

  lemma UnitRemembers(b: Binding, owed: set<Name>, hold: Hold, shape: Shape, listed: seq<Name>, stopped: bool)
    requires Remembers(b, owed, stopped) && !b.status.Ended?
    ensures var e := Got(ShapeFrame(hold, shape, listed));
            && !Early(b, owed, hold, e) && SameWish(b, Handle(b, hold, e))
            && Remembers(Handle(b, hold, e), OwedAfter(b, owed, hold, e), stopped)
  {
    hide Arrived, Edited;
  }

  lemma SnapshotRemembers(b: Binding, owed: set<Name>, hold: Hold, m: Name, value: Value, stopped: bool)
    requires Remembers(b, owed, stopped) && !b.status.Ended?
    ensures var e := Got(FullFrame(hold, m, value));
            && !Early(b, owed, hold, e) && SameWish(b, Handle(b, hold, e))
            && Remembers(Handle(b, hold, e), OwedAfter(b, owed, hold, e), stopped)
  {
    hide Shaped, Edited;
  }

  lemma OwnRemembers(b: Binding, owed: set<Name>, hold: Hold, e: Event, stopped: bool)
    requires Remembers(b, owed, stopped) && !b.status.Ended? && ViewsSynced(b) && !e.Got?
    requires !(stopped && !e.LinkLost? && !b.stateOn && Handle(b, hold, e).stateOn)
    ensures var next := Handle(b, hold, e);
            && !next.status.Ended? && !Early(b, owed, hold, e)
            && Remembers(next, OwedAfter(b, owed, hold, e),
                         if e.LinkLost? then false else stopped || (b.stateOn && !next.stateOn))
  {
  }

  lemma SameWishSynced(a: Binding, b: Binding)
    requires SameWish(a, b)
    ensures SameWish(SyncState(a), SyncState(b))
  {
  }

  lemma SameWishAfter(a: Binding, b: Binding, hold: Hold, e: Event)
    requires SameWish(a, b) && !e.Got?
    ensures SameWish(Handle(a, hold, e), Handle(b, hold, e))
  {
    match e
    case AddView(view, wantsState) =>
      var views := Joined(a.views, view, wantsState);
      SameWishSynced(a.(views := views), b.(views := views));
      hide SyncState;
    case RemoveView(view) =>
      SameWishSynced(a.(views := a.views - {view}), b.(views := b.views - {view}));
      hide SyncState;
    case _ =>
  }

  lemma {:induction false} SameRestarts(a: Binding, b: Binding, hold: Hold, own: seq<Event>, stopped: bool)
    requires SameWish(a, b) && forall i :: 0 <= i < |own| ==> !own[i].Got?
    ensures Restarts(a, hold, own, stopped) == Restarts(b, hold, own, stopped)
    decreases |own|
  {
    if own != [] {
      SameWishAfter(a, b, hold, own[0]);
      var x, y := Handle(a, hold, own[0]), Handle(b, hold, own[0]);
      hide Handle;
      SameRestarts(x, y, hold, own[1..], false);
      SameRestarts(x, y, hold, own[1..], true);
    }
  }

  lemma {:induction false} OwnPartOwn(events: seq<Event>)
    ensures forall i :: 0 <= i < |OwnPart(events)| ==> !OwnPart(events)[i].Got?
    decreases |events|
  {
    if events != [] { OwnPartOwn(events[1..]); }
  }

  lemma {:induction false} NeverRestarted(b: Binding, owed: set<Name>, hold: Hold, events: seq<Event>, stopped: bool)
    requires Consistent(b) && !b.status.Ended? && Remembers(b, owed, stopped)
    requires !Restarts(b, hold, OwnPart(events), stopped)
    ensures NoneEarly(b, owed, hold, events)
    decreases |events|
  {
    if events != [] {
      var e, own := events[0], OwnPart(events[1..]);
      var next := Handle(b, hold, e);
      HandleConsistent(b, hold, e);
      OwnPartOwn(events[1..]);
      if e.Got? {
        FrameRemembers(b, owed, hold, e.frame, stopped);
        assert OwnPart(events) == own;
        SameRestarts(b, next, hold, own, stopped);
        hide Handle, Early, Consistent, Remembers, OwedAfter;
        NeverRestarted(next, OwedAfter(b, owed, hold, e), hold, events[1..], stopped);
      } else {
        assert OwnPart(events)[0] == e && OwnPart(events)[1..] == own;
        OwnRemembers(b, owed, hold, e, stopped);
        hide Handle, Early, Consistent, Remembers, OwedAfter;
        NeverRestarted(next, OwedAfter(b, owed, hold, e), hold, events[1..],
                       if e.LinkLost? then false else stopped || (b.stateOn && !next.stateOn));
      }
    }
  }

  /** Where `EarlyRun` stands: a unit listing `x` waits, forgotten by a stop, or nothing waits. */
  predicate Standing(b: Binding, owed: set<Name>, shape: Shape, x: Name, stopped: bool) {
    && x in Wanted(b.contract, shape)
    && if stopped
       then !b.stateOn && owed == {x} && b.pending.Some? && b.pending.value.shape == shape && b.pending.value.missing == {}
       else owed == {} && b.pending.None?
  }

  lemma StopForgets(b: Binding, hold: Hold, e: Event, shape: Shape, x: Name)
    requires !b.status.Ended? && Standing(b, {}, shape, x, false) && ViewsSynced(b) && !e.Got? && !e.LinkLost?
    requires b.stateOn && !Handle(b, hold, e).stateOn
    ensures var unit := Got(ShapeFrame(hold, shape, [x]));
            var waiting := Handle(b, hold, unit);
            && SameWish(b, waiting) && OwedAfter(b, {}, hold, unit) == {x} && OwedAfter(waiting, {x}, hold, e) == {x}
            && Standing(Handle(waiting, hold, e), {x}, shape, x, true)
  {
    assert x in ({x} + {}) * Wanted(b.contract, shape);
    assert ({} + set n | n in [x]) * Wanted(b.contract, shape) == {x};
  }

  /** A unit that came before the stop: the shape waits, and the rest of what the consumer does is as before. */
  lemma StopGoesOn(b: Binding, hold: Hold, e: Event, rest: seq<Event>, shape: Shape, x: Name)
    requires Consistent(b) && !b.status.Ended? && Standing(b, {}, shape, x, false) && !e.Got? && !e.LinkLost?
    requires forall i :: 0 <= i < |rest| ==> !rest[i].Got?
    requires b.stateOn && !Handle(b, hold, e).stateOn
    ensures var unit := Got(ShapeFrame(hold, shape, [x]));
            var waiting := Handle(b, hold, unit);
            var after := Handle(waiting, hold, e);
            && OwedAfter(b, {}, hold, unit) == {x} && OwedAfter(waiting, {x}, hold, e) == {x}
            && Consistent(after) && !after.status.Ended? && Standing(after, {x}, shape, x, true)
            && Restarts(after, hold, rest, true) == Restarts(Handle(b, hold, e), hold, rest, true)
  {
    var unit := Got(ShapeFrame(hold, shape, [x]));
    var waiting := Handle(b, hold, unit);
    StopForgets(b, hold, e, shape, x);
    HandleConsistent(b, hold, unit);
    HandleConsistent(waiting, hold, e);
    SameWishAfter(b, waiting, hold, e);
    SameRestarts(Handle(b, hold, e), Handle(waiting, hold, e), hold, rest, true);
    hide Restarts, Standing;
  }

  lemma StartApplies(b: Binding, owed: set<Name>, hold: Hold, e: Event, shape: Shape, x: Name)
    requires !b.status.Ended? && Standing(b, owed, shape, x, true) && !e.Got? && !e.LinkLost? && Handle(b, hold, e).stateOn
    ensures Early(Handle(b, hold, e), OwedAfter(b, owed, hold, e), hold, Got(ShapeFrame(hold, shape, [])))
  {
    assert x in ({x} + {}) * Wanted(b.contract, shape);
  }

  lemma OwnStands(b: Binding, owed: set<Name>, hold: Hold, e: Event, shape: Shape, x: Name, stopped: bool)
    requires !b.status.Ended? && Standing(b, owed, shape, x, stopped) && !e.Got?
    requires e.LinkLost? || (b.stateOn ==> Handle(b, hold, e).stateOn)
    requires e.LinkLost? || (stopped ==> !Handle(b, hold, e).stateOn)
    ensures var next := Handle(b, hold, e);
            !next.status.Ended? && Standing(next, OwedAfter(b, owed, hold, e), shape, x, stopped && !e.LinkLost?)
  {
  }

  /** Frames that make a restarting consumer apply a shape early. */
  lemma {:induction false} EarlyRun(b: Binding, owed: set<Name>, hold: Hold, own: seq<Event>, stopped: bool, shape: Shape, x: Name)
    returns (events: seq<Event>)
    requires Consistent(b) && !b.status.Ended? && Standing(b, owed, shape, x, stopped)
    requires (forall i :: 0 <= i < |own| ==> !own[i].Got?) && Restarts(b, hold, own, stopped)
    ensures OwnPart(events) == own && !NoneEarly(b, owed, hold, events)
    decreases |own|
  {
    var e, rest := own[0], own[1..];
    var next := Handle(b, hold, e);
    HandleConsistent(b, hold, e);
    if !e.LinkLost? && stopped && next.stateOn {
      var again := Got(ShapeFrame(hold, shape, []));
      StartApplies(b, owed, hold, e, shape, x);
      OwnPartSame(rest);
      events := [e] + ([again] + rest);
      PrependOwn(e, [again] + rest);
      PrependFrame(again, rest);
      assert [e] + rest == own && ([again] + rest)[0] == again;
    } else if !e.LinkLost? && b.stateOn && !next.stateOn {
      var unit := Got(ShapeFrame(hold, shape, [x]));
      var waiting := Handle(b, hold, unit);
      StopGoesOn(b, hold, e, rest, shape, x);
      hide Handle, Consistent, OwedAfter, Early, Standing, Restarts;
      var tail := EarlyRun(Handle(waiting, hold, e), {x}, hold, rest, true, shape, x);
      events := [unit] + ([e] + tail);
      PrependFrame(unit, [e] + tail);
      PrependOwn(e, tail);
      assert [e] + rest == own && ([e] + tail)[1..] == tail && events[1..] == [e] + tail;
    } else {
      OwnStands(b, owed, hold, e, shape, x, stopped);
      hide Handle, Consistent, Early, Standing;
      var tail := EarlyRun(next, OwedAfter(b, owed, hold, e), hold, rest, stopped && !e.LinkLost?, shape, x);
      events := [e] + tail;
      PrependOwn(e, tail);
      assert [e] + rest == own && events[1..] == tail;
    }
  }

  lemma {:induction false} OwnPartSame(own: seq<Event>)
    requires forall i :: 0 <= i < |own| ==> !own[i].Got?
    ensures OwnPart(own) == own
    decreases |own|
  {
    if own != [] {
      OwnPartSame(own[1..]);
      assert [own[0]] + own[1..] == own;
    }
  }

  lemma PrependOwn(e: Event, tail: seq<Event>)
    requires !e.Got?
    ensures OwnPart([e] + tail) == [e] + OwnPart(tail)
  {
    assert ([e] + tail)[1..] == tail;
  }

  lemma PrependFrame(e: Event, tail: seq<Event>)
    requires e.Got?
    ensures OwnPart([e] + tail) == OwnPart(tail)
  {
    assert ([e] + tail)[1..] == tail;
  }

  /**
   Exactly when a shape can be applied early.  For everything a consumer does from a binding where nothing waits
   (view changes, lost links, new holds): no frames in between can make it apply a shape while state is on and a
   listed snapshot is owed, if and only if it never stops state and starts it again on the same link.
   */
  lemma EarlyIffRestarted(b: Binding, hold: Hold, own: seq<Event>, shape: Shape, x: Name)
    requires Consistent(b) && !b.status.Ended? && b.pending.None? && x in Wanted(b.contract, shape)
    requires forall i :: 0 <= i < |own| ==> !own[i].Got?
    ensures (forall events :: OwnPart(events) == own ==> NoneEarly(b, {}, hold, events)) <==> !Restarts(b, hold, own, false)
  {
    if Restarts(b, hold, own, false) {
      var events := EarlyRun(b, {}, hold, own, false, shape, x);
    } else {
      forall events | OwnPart(events) == own ensures NoneEarly(b, {}, hold, events) {
        NeverRestarted(b, {}, hold, events, false);
      }
    }
  }
}
