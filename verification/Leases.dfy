/**
 Roots, the leases they hold on the objects of a host, and the gate a reload puts in front of an object.  Any
 interleaving of calls, links and reloads is a run.
 */
module Leases {
  import opened Wrappers

  /** `leases`: the roots that touched the object and their code versions.  `gate`: the grandfathered roots. */
  datatype Object = Object(leases: map<nat, nat>, gate: Option<set<nat>>, minVersion: nat)

  /** A method or listener of `target` running in `root`. */
  datatype Invocation = Invocation(root: nat, target: nat)

  /** `root_end` for `root`, sent on `link`. */
  datatype Notice = Notice(link: nat, root: nat)

  /**
   `joined`: the calls of each root running here, by root.  `codeOf`: the code version of each root.  `foreign`: the links
   that brought a root from elsewhere.  `touches`: the objects a root has leases on.  `out`: where the calls of a root went.
   */
  datatype Host = Host(versions: set<nat>, joined: map<nat, nat>, codeOf: map<nat, nat>, local: set<nat>,
                       foreign: map<nat, set<nat>>, touches: map<nat, set<nat>>, out: map<nat, set<nat>>, links: set<nat>,
                       objects: map<nat, Object>, invocations: multiset<Invocation>, told: set<Notice>)

  datatype Step =
    | LinkOpened(link: nat)
    | LinkClosed(link: nat, order: seq<nat>)
    | NewObject(target: nat)
    | Start(root: nat, version: nat)
    | Arrive(root: nat, version: nat, link: nat)
    | Settle(root: nat)
    | Call(root: nat, target: nat)
    | Return(root: nat, target: nat)
    | Write(root: nat, target: nat)
    | Send(root: nat, link: nat)
    | RootEnd(root: nat, link: nat)
    | Gate(targets: set<nat>)
    | Abort
    | Commit(version: nat)
    | Retire(version: nat)

  function Of(m: map<nat, set<nat>>, r: nat): set<nat> {
    if r in m then m[r] else {}
  }

  predicate Runs(h: Host, r: nat) {
    exists i :: i in h.invocations && i.root == r
  }

  /** Code of the root holds a context that may still start work. */
  predicate CanAct(h: Host, r: nat) {
    r in h.codeOf && (r in h.joined || Runs(h, r))
  }

  /** A call of the root runs here, or a link that brought it has neither announced its end nor closed. */
  predicate Alive(h: Host, r: nat) {
    r in h.joined || r in h.foreign
  }

  /** Admission of a call or a write. */
  predicate Admitted(h: Host, r: nat, o: nat) {
    && r in h.codeOf && o in h.objects && h.codeOf[r] in h.versions && h.codeOf[r] >= h.objects[o].minVersion
    && (h.objects[o].gate.Some? ==> r in h.objects[o].gate.value)
  }

  predicate AllDrained(h: Host) {
    forall o :: o in h.objects && h.objects[o].gate.Some? ==> h.objects[o].gate.value == {}
  }

  predicate Enabled(h: Host, step: Step) {
    match step
    case LinkOpened(link) => link !in h.links
    case LinkClosed(link, order) =>
      && link in h.links
      && (forall r :: r in order ==> r in h.foreign)
      && (forall r :: r in h.foreign ==> r in order)
    case NewObject(o) => o !in h.objects
    case Start(r, version) => r !in h.codeOf && version in h.versions
    case Arrive(r, version, link) => link in h.links && (r in h.codeOf ==> h.codeOf[r] == version)
    case Settle(r) => r in h.joined
    case Call(r, o) => CanAct(h, r) && Admitted(h, r, o)
    case Return(r, o) => Invocation(r, o) in h.invocations
    case Write(r, o) => CanAct(h, r) && Admitted(h, r, o)
    case Send(r, link) => CanAct(h, r) && link in h.links
    case RootEnd(_, link) => link in h.links
    case Gate(targets) => targets <= h.objects.Keys && forall o :: o in h.objects ==> h.objects[o].gate.None?
    case Abort => true
    case Commit(version) => AllDrained(h) && forall v :: v in h.versions ==> v < version
    case Retire(version) => exists v :: v in h.versions && v > version
  }

  // ---------------------------------------------------------------- roots

  function Leased(h: Host, r: nat, o: nat): Host
    requires o in h.objects && r in h.codeOf
  {
    if r in h.objects[o].leases then h
    else h.(objects := h.objects[o := h.objects[o].(leases := h.objects[o].leases[r := h.codeOf[r]])],
            touches := h.touches[r := Of(h.touches, r) + {o}])
  }

  function RootEnded(o: Object, r: nat): Object {
    o.(leases := o.leases - {r}, gate := if o.gate.Some? then Some(o.gate.value - {r}) else None)
  }

  function ObjectsWithout(objects: map<nat, Object>, r: nat, touched: set<nat>): map<nat, Object> {
    map o | o in objects :: if o in touched then RootEnded(objects[o], r) else objects[o]
  }

  /** To the links that are still open. */
  function Notices(out: set<nat>, links: set<nat>, r: nat): set<Notice> {
    set link | link in out && link in links :: Notice(link, r)
  }

  /** No book keeps anything of `r`; a notice goes out wherever it went. */
  function EndRoot(h: Host, r: nat): Host {
    h.(local := h.local - {r}, foreign := h.foreign - {r}, touches := h.touches - {r}, out := h.out - {r},
       objects := ObjectsWithout(h.objects, r, Of(h.touches, r)),
       told := h.told + Notices(Of(h.out, r), h.links, r))
  }

  function Joined(h: Host, r: nat, version: nat): Host {
    h.(joined := h.joined[r := (if r in h.joined then h.joined[r] else 0) + 1], codeOf := h.codeOf[r := version])
  }

  function Settled(h: Host, r: nat): Host
    requires r in h.joined
  {
    if h.joined[r] > 1 then h.(joined := h.joined[r := h.joined[r] - 1])
    else
      var left := h.(joined := h.joined - {r});
      if r in h.foreign then left else EndRoot(left, r)
  }

  /** One link less that brought `r`; the last one may end it. */
  function ForeignEnded(h: Host, r: nat, link: nat): Host {
    if r !in h.foreign || link !in h.foreign[r] then h
    else if h.foreign[r] != {link} then h.(foreign := h.foreign[r := h.foreign[r] - {link}])
    else if r in h.joined then h.(foreign := h.foreign - {r})
    else EndRoot(h, r)
  }

  // ---------------------------------------------------------------- a link closes

  /** `order`: the roots that came from elsewhere, as the host remembers them. */
  function AllForeignEnded(h: Host, order: seq<nat>, link: nat): Host
    decreases |order|
  {
    if order == [] then h else AllForeignEnded(ForeignEnded(h, order[0], link), order[1..], link)
  }

  /** The closed link's own notices go nowhere. */
  function LinkGone(h: Host, link: nat, order: seq<nat>): Host {
    var ended := AllForeignEnded(h, order, link);
    ended.(links := ended.links - {link}, out := map r | r in ended.out :: ended.out[r] - {link})
  }

  // ---------------------------------------------------------------- steps

  function Gated(objects: map<nat, Object>, targets: set<nat>): map<nat, Object> {
    map o | o in objects ::
      if o in targets then objects[o].(gate := Some(objects[o].leases.Keys)) else objects[o]
  }

  /** Gated objects are installed with migrated state: only the new code version is admitted. */
  function Committed(objects: map<nat, Object>, version: nat): map<nat, Object> {
    map o | o in objects ::
      if objects[o].gate.Some? then objects[o].(gate := None, minVersion := version) else objects[o]
  }

  function Opened(objects: map<nat, Object>): map<nat, Object> {
    map o | o in objects :: objects[o].(gate := None)
  }

  function Next(h: Host, step: Step): Host
    requires Enabled(h, step)
  {
    match step
    case LinkOpened(link) => h.(links := h.links + {link})
    case LinkClosed(link, order) => LinkGone(h, link, order)
    case NewObject(o) => h.(objects := h.objects[o := Object(map[], None, 0)])
    case Start(r, version) => Joined(h.(local := h.local + {r}), r, version)
    case Arrive(r, version, link) =>
      if version !in h.versions then h.(local := h.local - {r})
      else Joined(if r in h.local then h else h.(foreign := h.foreign[r := Of(h.foreign, r) + {link}]), r, version)
    case Settle(r) => Settled(h, r)
    case Call(r, o) => Leased(h, r, o).(invocations := h.invocations + multiset{Invocation(r, o)})
    case Return(r, o) => h.(invocations := h.invocations - multiset{Invocation(r, o)})
    case Write(_, _) => h
    case Send(r, link) => h.(out := h.out[r := Of(h.out, r) + {link}])
    case RootEnd(r, link) => ForeignEnded(h, r, link)
    case Gate(targets) => h.(objects := Gated(h.objects, targets))
    case Abort => h.(objects := Opened(h.objects))
    case Commit(version) => h.(versions := h.versions + {version}, objects := Committed(h.objects, version))
    case Retire(version) => h.(versions := h.versions - {version})
  }

  // ---------------------------------------------------------------- what every run keeps

  /** Leases are of code versions the object admits, and grandfathered while it is gated. */
  predicate Sound(codeOf: map<nat, nat>, o: Object) {
    && (forall r :: r in o.leases ==> r in codeOf && o.leases[r] == codeOf[r] && o.minVersion <= codeOf[r])
    && (o.gate.Some? ==> o.leases.Keys <= o.gate.value)
  }

  predicate AllSound(codeOf: map<nat, nat>, objects: map<nat, Object>) {
    forall o :: o in objects ==> Sound(codeOf, objects[o])
  }

  /** The host's records of touched objects are the objects' leases. */
  ghost predicate Touched(objects: map<nat, Object>, touches: map<nat, set<nat>>) {
    && (forall r :: r in touches ==> touches[r] <= objects.Keys)
    && (forall r, o :: o in objects ==> (r in objects[o].leases <==> o in Of(touches, r)))
  }

  predicate KnownRoots(codeOf: map<nat, nat>, joined: map<nat, nat>, foreign: map<nat, set<nat>>) {
    && (forall r :: r in foreign ==> foreign[r] != {} && r in codeOf)
    && (forall r :: r in joined ==> joined[r] > 0 && r in codeOf)
  }

  predicate Invoked(codeOf: map<nat, nat>, objects: map<nat, Object>, invocations: multiset<Invocation>) {
    forall i :: i in invocations ==> i.root in codeOf && i.target in objects
  }

  predicate LinksOf(roots: map<nat, set<nat>>, links: set<nat>) {
    forall r :: r in roots ==> roots[r] <= links
  }

  ghost predicate Inv(h: Host) {
    && KnownRoots(h.codeOf, h.joined, h.foreign) && Invoked(h.codeOf, h.objects, h.invocations)
    && Touched(h.objects, h.touches) && AllSound(h.codeOf, h.objects)
    && LinksOf(h.foreign, h.links) && LinksOf(h.out, h.links)
  }

  // ---------------------------------------------------------------- ending roots

  lemma EndTouched(objects: map<nat, Object>, touches: map<nat, set<nat>>, codeOf: map<nat, nat>, r: nat)
    requires Touched(objects, touches) && AllSound(codeOf, objects)
    ensures Touched(ObjectsWithout(objects, r, Of(touches, r)), touches - {r})
    ensures AllSound(codeOf, ObjectsWithout(objects, r, Of(touches, r)))
    ensures forall o :: o in objects ==> r !in ObjectsWithout(objects, r, Of(touches, r))[o].leases
  {
    var without := ObjectsWithout(objects, r, Of(touches, r));
    forall x, o | o in objects ensures x in without[o].leases <==> o in Of(touches - {r}, x) {
      assert x in objects[o].leases <==> o in Of(touches, x);
    }
    forall o | o in objects ensures Sound(codeOf, without[o]) { assert Sound(codeOf, objects[o]); }
  }

  lemma EndKeeps(h: Host, r: nat)
    requires Inv(h)
    ensures Inv(EndRoot(h, r))
  {
    EndTouched(h.objects, h.touches, h.codeOf, r);
    hide Touched, AllSound;
  }

  lemma ForeignEndedKeeps(h: Host, r: nat, link: nat)
    requires Inv(h)
    ensures Inv(ForeignEnded(h, r, link)) && ForeignEnded(h, r, link).links == h.links
  {
    hide Touched, AllSound, Invoked;
    if r in h.foreign && h.foreign[r] == {link} && r !in h.joined {
      EndKeeps(h, r);
      hide Inv;
    }
  }

  /** While a link closes its roots are told one by one. */
  ghost predicate Closing(h: Host, order: seq<nat>, link: nat) {
    && Inv(h) && link in h.links && forall r :: r in h.foreign && r !in order ==> link !in h.foreign[r]
  }

  lemma ClosingStep(h: Host, order: seq<nat>, link: nat)
    requires Closing(h, order, link) && order != []
    ensures Closing(ForeignEnded(h, order[0], link), order[1..], link) && ForeignEnded(h, order[0], link).links == h.links
  {
    ForeignEndedKeeps(h, order[0], link);
    assert forall r :: r in order ==> r == order[0] || r in order[1..];
    hide Inv;
  }

  lemma {:induction false} AllForeignEndedKeeps(h: Host, order: seq<nat>, link: nat)
    requires Closing(h, order, link)
    ensures Closing(AllForeignEnded(h, order, link), [], link) && AllForeignEnded(h, order, link).links == h.links
    decreases |order|
  {
    if order != [] {
      ClosingStep(h, order, link);
      hide Closing;
      AllForeignEndedKeeps(ForeignEnded(h, order[0], link), order[1..], link);
    }
  }

  lemma LinkGoneKeeps(h: Host, link: nat, order: seq<nat>)
    requires Inv(h) && Enabled(h, LinkClosed(link, order))
    ensures Inv(LinkGone(h, link, order))
  {
    AllForeignEndedKeeps(h, order, link);
    hide Touched, AllSound, AllForeignEnded;
  }

  // ---------------------------------------------------------------- every step

  lemma JoinedSound(codeOf: map<nat, nat>, objects: map<nat, Object>, r: nat, version: nat)
    requires AllSound(codeOf, objects) && (r in codeOf ==> codeOf[r] == version)
    ensures AllSound(codeOf[r := version], objects)
  {
    forall o | o in objects ensures Sound(codeOf[r := version], objects[o]) { assert Sound(codeOf, objects[o]); }
  }

  lemma JoinKeeps(h: Host, r: nat, version: nat)
    requires Inv(h) && (r in h.codeOf ==> h.codeOf[r] == version)
    ensures Inv(Joined(h, r, version))
  {
    JoinedSound(h.codeOf, h.objects, r, version);
    hide Touched, AllSound;
  }

  lemma StartKeeps(h: Host, r: nat, version: nat)
    requires Inv(h) && Enabled(h, Start(r, version))
    ensures Inv(Next(h, Start(r, version)))
  {
    JoinKeeps(h, r, version);
    hide Touched, AllSound;
  }

  /** The link and the call of an arriving root are noted in one step. */
  lemma ArriveKeeps(h: Host, r: nat, version: nat, link: nat)
    requires Inv(h) && Enabled(h, Arrive(r, version, link))
    ensures Inv(Next(h, Arrive(r, version, link)))
  {
    hide Touched, AllSound;
    if version in h.versions { JoinKeeps(h, r, version); }
  }

  lemma SettleKeeps(h: Host, r: nat)
    requires Inv(h) && r in h.joined
    ensures Inv(Settled(h, r))
  {
    hide Touched, AllSound, EndRoot;
    if h.joined[r] == 1 { EndKeeps(h.(joined := h.joined - {r}), r); }
  }

  lemma LeasedSound(h: Host, r: nat, o: nat)
    requires Touched(h.objects, h.touches) && AllSound(h.codeOf, h.objects) && Admitted(h, r, o)
    ensures Touched(Leased(h, r, o).objects, Leased(h, r, o).touches) && AllSound(h.codeOf, Leased(h, r, o).objects)
    ensures r in Leased(h, r, o).objects[o].leases
  {
    var q := Leased(h, r, o);
    assert Sound(h.codeOf, h.objects[o]);
    forall x | x in q.objects ensures Sound(h.codeOf, q.objects[x]) { assert Sound(h.codeOf, h.objects[x]); }
    forall x, y | y in q.objects ensures x in q.objects[y].leases <==> y in Of(q.touches, x) {
      assert x in h.objects[y].leases <==> y in Of(h.touches, x);
    }
  }

  lemma CallKeeps(h: Host, r: nat, o: nat)
    requires Inv(h) && Enabled(h, Call(r, o))
    ensures Inv(Next(h, Call(r, o)))
  {
    LeasedSound(h, r, o);
    hide Touched, AllSound;
  }

  /** Only gates and limits change. */
  lemma GatesSound(codeOf: map<nat, nat>, before: map<nat, Object>, after: map<nat, Object>, touches: map<nat, set<nat>>)
    requires Touched(before, touches) && AllSound(codeOf, before) && after.Keys == before.Keys
    requires forall o :: o in before ==> after[o].leases == before[o].leases
    requires forall o :: o in before ==> after[o].gate.Some? ==> after[o].leases.Keys <= after[o].gate.value
    requires forall o :: o in before ==> after[o].minVersion == before[o].minVersion || after[o].leases == map[]
    ensures Touched(after, touches) && AllSound(codeOf, after)
  {
    forall r, o | o in after ensures r in after[o].leases <==> o in Of(touches, r) {
      assert r in before[o].leases <==> o in Of(touches, r);
    }
    forall o | o in after ensures Sound(codeOf, after[o]) { assert Sound(codeOf, before[o]); }
  }

  lemma GatedSound(h: Host, targets: set<nat>)
    requires Touched(h.objects, h.touches) && AllSound(h.codeOf, h.objects)
    requires forall o :: o in h.objects ==> h.objects[o].gate.None?
    ensures Touched(Gated(h.objects, targets), h.touches) && AllSound(h.codeOf, Gated(h.objects, targets))
  {
    GatesSound(h.codeOf, h.objects, Gated(h.objects, targets), h.touches);
  }

  lemma OpenedSound(h: Host)
    requires Touched(h.objects, h.touches) && AllSound(h.codeOf, h.objects)
    ensures Touched(Opened(h.objects), h.touches) && AllSound(h.codeOf, Opened(h.objects))
  {
    GatesSound(h.codeOf, h.objects, Opened(h.objects), h.touches);
  }

  /** The cut is clean: a drained object has no leases of older versions left. */
  lemma CommittedSound(h: Host, version: nat)
    requires Touched(h.objects, h.touches) && AllSound(h.codeOf, h.objects) && AllDrained(h)
    ensures Touched(Committed(h.objects, version), h.touches) && AllSound(h.codeOf, Committed(h.objects, version))
  {
    forall o | o in h.objects && h.objects[o].gate.Some? ensures h.objects[o].leases == map[] {
      assert Sound(h.codeOf, h.objects[o]);
    }
    GatesSound(h.codeOf, h.objects, Committed(h.objects, version), h.touches);
  }

  lemma NewObjectKeeps(h: Host, o: nat)
    requires Inv(h) && o !in h.objects
    ensures Inv(Next(h, NewObject(o)))
  {
    var objects := h.objects[o := Object(map[], None, 0)];
    forall r, x | x in objects ensures r in objects[x].leases <==> x in Of(h.touches, r) {
      if x in h.objects { assert r in h.objects[x].leases <==> x in Of(h.touches, r); }
    }
    forall x | x in objects ensures Sound(h.codeOf, objects[x]) {
      if x in h.objects { assert Sound(h.codeOf, h.objects[x]); }
    }
  }

  lemma PlainKeeps(h: Host, step: Step)
    requires Inv(h) && Enabled(h, step) && (step.LinkOpened? || step.Return? || step.Write? || step.Send? || step.Retire?)
    ensures Inv(Next(h, step))
  {
    hide Touched, AllSound, CanAct, Admitted;
  }

  lemma GatingKeeps(h: Host, step: Step)
    requires Inv(h) && Enabled(h, step) && (step.Gate? || step.Abort? || step.Commit?)
    ensures Inv(Next(h, step))
  {
    match step
    case Gate(targets) => GatedSound(h, targets);
    case Abort => OpenedSound(h);
    case Commit(version) => CommittedSound(h, version);
    hide Touched, AllSound;
  }

  lemma NextKeeps(h: Host, step: Step)
    requires Inv(h) && Enabled(h, step)
    ensures Inv(Next(h, step))
  {
    hide Inv, LinkGone, EndRoot, ForeignEnded, Settled, Joined, Leased, CanAct, Admitted;
    match step
    case LinkClosed(link, order) => LinkGoneKeeps(h, link, order);
    case NewObject(o) => NewObjectKeeps(h, o);
    case Start(r, version) => StartKeeps(h, r, version);
    case Arrive(r, version, link) => ArriveKeeps(h, r, version, link);
    case Settle(r) => SettleKeeps(h, r);
    case Call(r, o) => CallKeeps(h, r, o);
    case RootEnd(r, link) => ForeignEndedKeeps(h, r, link);
    case Gate(_) => GatingKeeps(h, step);
    case Abort => GatingKeeps(h, step);
    case Commit(_) => GatingKeeps(h, step);
    case _ => PlainKeeps(h, step);
  }

  // ---------------------------------------------------------------- how roots end

  /** Nothing is left of a root, and every link it went out on that is still open was told. */
  ghost predicate Gone(before: Host, after: Host, r: nat) {
    && Of(after.touches, r) == {} && Of(after.out, r) == {}
    && (forall link :: link in Of(before.out, r) && link in after.links ==> Notice(link, r) in after.told)
  }

  /** A root goes on as it was, or everything of it ends at once. */
  ghost predicate Fate(before: Host, after: Host, x: nat) {
    && (Alive(after, x) ==> Alive(before, x) && Of(after.touches, x) == Of(before.touches, x))
    && Of(after.touches, x) <= Of(before.touches, x) && Of(after.out, x) <= Of(before.out, x)
    && (Alive(before, x) && !Alive(after, x) ==> Gone(before, after, x))
    && (forall link :: link in Of(before.out, x) && link in after.links && Alive(after, x) ==> link in Of(after.out, x))
  }

  predicate Onward(before: Host, after: Host) {
    before.told <= after.told && after.links <= before.links
  }

  lemma FateThen(before: Host, mid: Host, after: Host, x: nat)
    requires Fate(before, mid, x) && Fate(mid, after, x) && Onward(before, mid) && Onward(mid, after)
    ensures Fate(before, after, x)
  {
  }

  lemma EndFate(h: Host, r: nat, x: nat)
    requires LinksOf(h.out, h.links) && r !in h.joined
    ensures Fate(h, EndRoot(h, r), x) && Onward(h, EndRoot(h, r))
  {
  }

  lemma ForeignEndedFate(h: Host, r: nat, link: nat, x: nat)
    requires LinksOf(h.out, h.links)
    ensures Fate(h, ForeignEnded(h, r, link), x) && Onward(h, ForeignEnded(h, r, link))
  {
    if r in h.foreign && h.foreign[r] == {link} && r !in h.joined {
      EndFate(h, r, x);
      hide EndRoot;
    }
  }

  lemma {:induction false} AllForeignEndedFate(h: Host, order: seq<nat>, link: nat, x: nat)
    requires Inv(h)
    ensures Fate(h, AllForeignEnded(h, order, link), x) && Onward(h, AllForeignEnded(h, order, link))
    decreases |order|
  {
    if order != [] {
      var mid := ForeignEnded(h, order[0], link);
      ForeignEndedKeeps(h, order[0], link);
      ForeignEndedFate(h, order[0], link, x);
      hide Fate, ForeignEnded, Inv;
      AllForeignEndedFate(mid, order[1..], link, x);
      FateThen(h, mid, AllForeignEnded(h, order, link), x);
    }
  }

  lemma LinkGoneFate(h: Host, link: nat, order: seq<nat>, x: nat)
    requires Inv(h)
    ensures Fate(h, LinkGone(h, link, order), x)
  {
    AllForeignEndedFate(h, order, link, x);
    hide AllForeignEnded, Inv;
  }

  lemma SettledFate(h: Host, r: nat, x: nat)
    requires LinksOf(h.out, h.links) && r in h.joined
    ensures Fate(h, Settled(h, r), x)
  {
    if h.joined[r] <= 1 && r !in h.foreign { EndFate(h.(joined := h.joined - {r}), r, x); }
  }

  predicate Ending(step: Step) {
    step.Settle? || step.RootEnd? || step.LinkClosed?
  }

  lemma EndingFate(h: Host, step: Step, x: nat)
    requires Inv(h) && Enabled(h, step) && Ending(step)
    ensures Fate(h, Next(h, step), x) && Next(h, step).invocations == h.invocations
  {
    hide Fate;
    match step
    case Settle(r) => SettledFate(h, r, x);
    case RootEnd(r, link) => ForeignEndedFate(h, r, link, x);
    case LinkClosed(link, order) => LinkGoneFate(h, link, order, x); EndedInvocations(h, order, link);
  }

  lemma {:induction false} EndedInvocations(h: Host, order: seq<nat>, link: nat)
    ensures AllForeignEnded(h, order, link).invocations == h.invocations
    decreases |order|
  {
    if order != [] { EndedInvocations(ForeignEnded(h, order[0], link), order[1..], link); }
  }

  lemma OthersStay(h: Host, step: Step, x: nat)
    requires Enabled(h, step) && !Ending(step) && Alive(h, x)
    ensures Alive(Next(h, step), x)
  {
  }

  /** In every step: when a root ends all its leases go with it and every open link it went out on is told. */
  lemma RootsEndWhole(h: Host, step: Step, x: nat)
    requires Inv(h) && Enabled(h, step) && Alive(h, x) && !Alive(Next(h, step), x)
    ensures Gone(h, Next(h, step), x)
    ensures forall o :: o in Next(h, step).objects ==> x !in Next(h, step).objects[o].leases
  {
    hide Next, Touched, AllSound;
    if !Ending(step) { OthersStay(h, step, x); }
    EndingFate(h, step, x);
    NextKeeps(h, step);
    NoneLeft(Next(h, step), x);
  }

  lemma NoneLeft(h: Host, x: nat)
    requires Touched(h.objects, h.touches) && Of(h.touches, x) == {}
    ensures forall o :: o in h.objects ==> x !in h.objects[o].leases
  {
    forall o | o in h.objects ensures x !in h.objects[o].leases { assert x in h.objects[o].leases <==> o in Of(h.touches, x); }
  }

  // ---------------------------------------------------------------- leases follow the calls

  /** Only living roots have leases and links to tell. */
  ghost predicate Honest(h: Host) {
    forall r :: Of(h.touches, r) != {} || Of(h.out, r) != {} ==> Alive(h, r)
  }

  /** Whatever runs in an object is leased there. */
  ghost predicate Covered(h: Host) {
    forall i :: i in h.invocations ==> i.target in Of(h.touches, i.root)
  }

  ghost predicate Faithful(h: Host) {
    Honest(h) && Covered(h)
  }

  /** No root ends while a call it made still runs: every call is awaited. */
  ghost predicate Awaited(h: Host, step: Step)
    requires Enabled(h, step)
  {
    forall r :: Alive(h, r) && Runs(h, r) ==> Alive(Next(h, step), r)
  }

  /** Roots that go on keep what runs covered; a root that ends leaves what runs uncovered. */
  lemma FatesFaithful(h: Host, q: Host)
    requires Faithful(h) && q.invocations == h.invocations && forall x :: Fate(h, q, x)
    ensures Faithful(q) <==> forall r :: Alive(h, r) && Runs(h, r) ==> Alive(q, r)
  {
    if forall r :: Alive(h, r) && Runs(h, r) ==> Alive(q, r) {
      forall i | i in q.invocations ensures i.target in Of(q.touches, i.root) {
        assert i.target in Of(h.touches, i.root) && Alive(h, i.root);
        assert Runs(h, i.root) && Fate(h, q, i.root);
      }
      forall r | Of(q.touches, r) != {} || Of(q.out, r) != {} ensures Alive(q, r) {
        assert Fate(h, q, r);
        assert Of(h.touches, r) != {} || Of(h.out, r) != {};
      }
    } else {
      var r :| Alive(h, r) && Runs(h, r) && !Alive(q, r);
      var i :| i in h.invocations && i.root == r;
      assert Fate(h, q, r) && i in q.invocations;
    }
  }

  lemma EndingFaithful(h: Host, step: Step)
    requires Inv(h) && Faithful(h) && Enabled(h, step) && Ending(step)
    ensures Faithful(Next(h, step)) <==> Awaited(h, step)
  {
    hide Inv, Faithful, Next, Fate, Enabled;
    forall x ensures Fate(h, Next(h, step), x) { EndingFate(h, step, x); }
    EndingFate(h, step, 0);
    FatesFaithful(h, Next(h, step));
  }

  /** Who can act has something that keeps it alive. */
  lemma ActsAlive(h: Host, r: nat)
    requires Faithful(h) && CanAct(h, r)
    ensures Alive(h, r)
  {
    if r !in h.joined {
      var i :| i in h.invocations && i.root == r;
    }
  }

  /** Nothing the books depend on gets less. */
  lemma MoreFaithful(h: Host, q: Host)
    requires Faithful(h) && q.touches == h.touches && q.out == h.out
    requires forall i :: i in q.invocations ==> i in h.invocations
    requires forall r :: Alive(h, r) ==> Alive(q, r)
    ensures Faithful(q)
  {
    forall r | Of(q.touches, r) != {} || Of(q.out, r) != {} ensures Alive(q, r) { assert Of(h.touches, r) == Of(q.touches, r); }
  }

  lemma LeasedTouches(h: Host, r: nat, o: nat, x: nat)
    requires Touched(h.objects, h.touches) && Admitted(h, r, o)
    ensures Of(Leased(h, r, o).touches, x) == Of(h.touches, x) + if x == r then {o} else {}
  {
    assert r in h.objects[o].leases <==> o in Of(h.touches, r);
  }

  lemma CallFaithful(h: Host, r: nat, o: nat)
    requires Inv(h) && Faithful(h) && Enabled(h, Call(r, o))
    ensures Faithful(Next(h, Call(r, o)))
  {
    ActsAlive(h, r);
    var q := Next(h, Call(r, o));
    forall x ensures Of(q.touches, x) == Of(h.touches, x) + if x == r then {o} else {} { LeasedTouches(h, r, o, x); }
    OneMoreFaithful(h, q, r, o);
  }

  lemma OneMoreFaithful(h: Host, q: Host, r: nat, o: nat)
    requires Faithful(h) && Alive(h, r)
    requires forall x :: Of(q.touches, x) == Of(h.touches, x) + if x == r then {o} else {}
    requires q.joined == h.joined && q.foreign == h.foreign && q.out == h.out
    requires q.invocations == h.invocations + multiset{Invocation(r, o)}
    ensures Faithful(q)
  {
    forall i | i in q.invocations ensures i.target in Of(q.touches, i.root) {
      assert i in h.invocations || i == Invocation(r, o);
    }
    forall x | Of(q.touches, x) != {} || Of(q.out, x) != {} ensures Alive(q, x) {
      assert x != r ==> Of(q.touches, x) == Of(h.touches, x);
    }
  }

  lemma SendFaithful(h: Host, r: nat, link: nat)
    requires Faithful(h) && Enabled(h, Send(r, link))
    ensures Faithful(Next(h, Send(r, link)))
  {
    ActsAlive(h, r);
    var q := Next(h, Send(r, link));
    forall x | Of(q.touches, x) != {} || Of(q.out, x) != {} ensures Alive(q, x) {
      assert Of(h.touches, x) == Of(q.touches, x) && (x != r ==> Of(h.out, x) == Of(q.out, x));
    }
  }

  lemma OtherFaithful(h: Host, step: Step)
    requires Inv(h) && Faithful(h) && Enabled(h, step) && !Ending(step)
    ensures Faithful(Next(h, step)) && Awaited(h, step)
  {
    hide Inv, Faithful, Admitted, CanAct;
    forall x | Alive(h, x) ensures Alive(Next(h, step), x) { OthersStay(h, step, x); }
    if step.Call? {
      CallFaithful(h, step.root, step.target);
    } else if step.Send? {
      SendFaithful(h, step.root, step.link);
    } else {
      SameBooks(h, step);
      hide Next, Enabled;
      MoreFaithful(h, Next(h, step));
    }
  }

  lemma JoinedBooks()
    ensures forall g: Host, r: nat, v: nat ::
              var q := Joined(g, r, v);
              q.objects == g.objects && q.touches == g.touches && q.out == g.out && q.invocations == g.invocations
  {
  }

  /** Steps that change no object. */
  predicate OffObjects(step: Step) {
    step.LinkOpened? || step.Start? || step.Arrive? || step.Return? || step.Write? || step.Send? || step.Retire?
  }

  lemma OffObjectsKeep(h: Host, step: Step)
    requires Enabled(h, step) && OffObjects(step)
    ensures var q := Next(h, step);
            q.objects == h.objects && q.touches == h.touches
  {
    hide CanAct, Admitted, Enabled, Joined, Leased, Settled, ForeignEnded, LinkGone, Of;
    JoinedBooks();
  }

  lemma OffObjectsCode(h: Host, step: Step)
    requires Enabled(h, step) && OffObjects(step)
    ensures var q := Next(h, step);
            forall r :: r in h.codeOf ==> r in q.codeOf && q.codeOf[r] == h.codeOf[r]
  {
    hide CanAct, Admitted;
  }

  lemma FewerInvocations(h: Host, step: Step)
    requires Enabled(h, step) && OffObjects(step)
    ensures forall i :: i in Next(h, step).invocations ==> i in h.invocations
  {
    hide CanAct, Admitted;
  }

  lemma OffObjectsOut(h: Host, step: Step)
    requires Enabled(h, step) && OffObjects(step) && !step.Send?
    ensures Next(h, step).out == h.out
  {
    hide CanAct, Admitted, Enabled, Joined, Leased, Settled, ForeignEnded, LinkGone, Of;
    JoinedBooks();
  }

  lemma SameBooks(h: Host, step: Step)
    requires Enabled(h, step) && !Ending(step) && !step.Call? && !step.Send?
    ensures var q := Next(h, step);
            q.touches == h.touches && q.out == h.out && forall i :: i in q.invocations ==> i in h.invocations
  {
    hide CanAct, Admitted, Joined, Gated, Committed, Opened;
    if OffObjects(step) {
      OffObjectsKeep(h, step);
      OffObjectsOut(h, step);
      FewerInvocations(h, step);
      hide Next, Enabled;
    }
  }

  /** The exact condition: books stay faithful just as long as every call is awaited. */
  lemma FaithfulStep(h: Host, step: Step)
    requires Inv(h) && Faithful(h) && Enabled(h, step)
    ensures Faithful(Next(h, step)) <==> Awaited(h, step)
  {
    hide Inv, Faithful, Awaited, Next;
    if Ending(step) { EndingFaithful(h, step); } else { OtherFaithful(h, step); }
  }

  // ---------------------------------------------------------------- runs

  function Idle(versions: set<nat>): Host {
    Host(versions, map[], map[], {}, map[], map[], map[], {}, map[], multiset{}, {})
  }

  lemma IdleFaithful(versions: set<nat>)
    ensures Inv(Idle(versions)) && Faithful(Idle(versions))
  {
  }

  predicate IsRun(h: Host, steps: seq<Step>)
    decreases |steps|
  {
    steps == [] || (Enabled(h, steps[0]) && IsRun(Next(h, steps[0]), steps[1..]))
  }

  function End(h: Host, steps: seq<Step>): Host
    requires IsRun(h, steps)
    decreases |steps|
  {
    if steps == [] then h else End(Next(h, steps[0]), steps[1..])
  }

  ghost predicate AwaitedRun(h: Host, steps: seq<Step>)
    requires IsRun(h, steps)
    decreases |steps|
  {
    steps == [] || (Awaited(h, steps[0]) && AwaitedRun(Next(h, steps[0]), steps[1..]))
  }

  /** In every state of the run. */
  ghost predicate FaithfulRun(h: Host, steps: seq<Step>)
    requires IsRun(h, steps)
    decreases |steps|
  {
    Faithful(h) && (steps == [] || FaithfulRun(Next(h, steps[0]), steps[1..]))
  }

  lemma {:induction false} RunKeeps(h: Host, steps: seq<Step>)
    requires Inv(h) && IsRun(h, steps)
    ensures Inv(End(h, steps))
    decreases |steps|
  {
    hide Inv;
    if steps != [] {
      NextKeeps(h, steps[0]);
      RunKeeps(Next(h, steps[0]), steps[1..]);
    }
  }

  /** Roots have leases only while they live, and whatever runs is leased, exactly in the runs that await every call. */
  lemma {:induction false} RootLeases(h: Host, steps: seq<Step>)
    requires Inv(h) && Faithful(h) && IsRun(h, steps)
    ensures FaithfulRun(h, steps) <==> AwaitedRun(h, steps)
    decreases |steps|
  {
    hide Inv, Faithful, Awaited, Next;
    if steps != [] {
      FaithfulStep(h, steps[0]);
      NextKeeps(h, steps[0]);
      var next := Next(h, steps[0]);
      if Faithful(next) { RootLeases(next, steps[1..]); } else { FaithfulFirst(next, steps[1..]); }
    }
  }

  /** From a host that starts: the books stay right through exactly the runs that await every call. */
  lemma RootLeasesFromIdle(versions: set<nat>, steps: seq<Step>)
    requires IsRun(Idle(versions), steps)
    ensures FaithfulRun(Idle(versions), steps) <==> AwaitedRun(Idle(versions), steps)
  {
    IdleFaithful(versions);
    hide Idle, Inv, Faithful;
    RootLeases(Idle(versions), steps);
  }

  lemma FaithfulFirst(h: Host, steps: seq<Step>)
    requires IsRun(h, steps) && !Faithful(h)
    ensures !FaithfulRun(h, steps)
  {
  }

  // ---------------------------------------------------------------- the gate

  /** Drained: no lease on the object, and nobody is admitted. */
  predicate Drained(h: Host, o: nat) {
    o in h.objects && h.objects[o].gate == Some({})
  }

  predicate UsesObject(step: Step, o: nat) {
    (step.Call? || step.Write?) && step.target == o
  }

  predicate EndsGate(step: Step) {
    step.Abort? || step.Commit?
  }

  lemma DrainedEnd(h: Host, r: nat, o: nat)
    requires Drained(h, o)
    ensures Drained(EndRoot(h, r), o)
  {
    assert {} - {r} == {};
  }

  lemma DrainedForeignEnded(h: Host, r: nat, link: nat, o: nat)
    requires Drained(h, o)
    ensures Drained(ForeignEnded(h, r, link), o)
  {
    DrainedEnd(h, r, o);
    hide EndRoot;
  }

  lemma {:induction false} DrainedThroughEnds(h: Host, order: seq<nat>, link: nat, o: nat)
    requires Drained(h, o)
    ensures Drained(AllForeignEnded(h, order, link), o)
    decreases |order|
  {
    if order != [] {
      DrainedForeignEnded(h, order[0], link, o);
      hide ForeignEnded, Drained;
      DrainedThroughEnds(ForeignEnded(h, order[0], link), order[1..], link, o);
    }
  }

  lemma DrainedStep(h: Host, step: Step, o: nat)
    requires Inv(h) && Drained(h, o) && Enabled(h, step) && !EndsGate(step)
    ensures !UsesObject(step, o) && Drained(Next(h, step), o)
  {
    hide Inv, CanAct, EndRoot, ForeignEnded, AllForeignEnded;
    match step
    case LinkClosed(link, order) => DrainedThroughEnds(h, order, link, o);
    case Settle(r) => DrainedEnd(h.(joined := h.joined - {r}), r, o);
    case RootEnd(r, link) => DrainedForeignEnded(h, r, link, o);
    case _ =>
  }

  /** From the moment an object has drained until commit or abort no root has a lease on it, calls it or writes to it. */
  lemma {:induction false} GateSafety(h: Host, steps: seq<Step>, o: nat)
    requires Inv(h) && Drained(h, o) && IsRun(h, steps) && forall i :: 0 <= i < |steps| ==> !EndsGate(steps[i])
    ensures Drained(End(h, steps), o) && End(h, steps).objects[o].leases == map[]
    ensures forall i :: 0 <= i < |steps| ==> !UsesObject(steps[i], o)
    decreases |steps|
  {
    hide Inv, Next, UsesObject, EndsGate;
    if steps != [] {
      DrainedStep(h, steps[0], o);
      NextKeeps(h, steps[0]);
      assert forall i :: 0 <= i < |steps[1..]| ==> steps[1..][i] == steps[i + 1];
      GateSafety(Next(h, steps[0]), steps[1..], o);
    } else {
      DrainedUnleased(h, o);
    }
  }

  lemma DrainedUnleased(h: Host, o: nat)
    requires Inv(h) && Drained(h, o)
    ensures h.objects[o].leases == map[]
  {
    assert Sound(h.codeOf, h.objects[o]);
  }

  /** When every call is awaited nothing even runs in a drained object. */
  lemma DrainedMeansQuiet(h: Host, o: nat)
    requires Inv(h) && Faithful(h) && Drained(h, o)
    ensures forall i :: i in h.invocations ==> i.target != o
  {
    DrainedUnleased(h, o);
    forall i | i in h.invocations ensures i.target != o {
      assert o in h.objects && (i.root in h.objects[o].leases <==> o in Of(h.touches, i.root));
    }
  }

  // ---------------------------------------------------------------- after a commit

  /** The object admits nothing below `version`, and neither do later commits. */
  predicate AtLeast(h: Host, o: nat, version: nat) {
    o in h.objects && version <= h.objects[o].minVersion && exists v :: v in h.versions && v >= h.objects[o].minVersion
  }

  lemma CommitInstalls(h: Host, version: nat, o: nat)
    requires Enabled(h, Commit(version)) && o in h.objects && h.objects[o].gate.Some?
    ensures AtLeast(Next(h, Commit(version)), o, version)
  {
    assert version in Next(h, Commit(version)).versions;
  }

  /** What the limit of an object depends on. */
  predicate SameLimits(h: Host, q: Host) {
    && q.versions == h.versions && q.objects.Keys == h.objects.Keys && q.codeOf == h.codeOf
    && forall o :: o in h.objects ==> q.objects[o].minVersion == h.objects[o].minVersion
  }

  lemma EndLimits(h: Host, r: nat)
    ensures SameLimits(h, EndRoot(h, r))
  {
  }

  lemma ForeignEndedLimits(h: Host, r: nat, link: nat)
    ensures SameLimits(h, ForeignEnded(h, r, link))
  {
    EndLimits(h, r);
    hide EndRoot;
  }

  lemma {:induction false} AllForeignEndedLimits(h: Host, order: seq<nat>, link: nat)
    ensures SameLimits(h, AllForeignEnded(h, order, link))
    decreases |order|
  {
    if order != [] {
      ForeignEndedLimits(h, order[0], link);
      AllForeignEndedLimits(ForeignEnded(h, order[0], link), order[1..], link);
      hide ForeignEnded;
    }
  }

  lemma EndingLimits(h: Host, step: Step)
    requires Enabled(h, step) && Ending(step)
    ensures SameLimits(h, Next(h, step))
  {
    hide EndRoot, ForeignEnded, AllForeignEnded;
    match step
    case LinkClosed(link, order) => AllForeignEndedLimits(h, order, link);
    case Settle(r) => EndLimits(h.(joined := h.joined - {r}), r);
    case RootEnd(r, link) => ForeignEndedLimits(h, r, link);
  }

  /** Limits only rise, and a root never changes its code version. */
  lemma LimitsStep(h: Host, step: Step, o: nat, version: nat)
    requires Enabled(h, step) && AtLeast(h, o, version)
    ensures AtLeast(Next(h, step), o, version)
    ensures forall r :: r in h.codeOf ==> r in Next(h, step).codeOf && Next(h, step).codeOf[r] == h.codeOf[r]
    ensures UsesObject(step, o) ==> step.root in h.codeOf && version <= h.codeOf[step.root]
  {
    hide CanAct;
    if Ending(step) {
      EndingLimits(h, step);
      hide Next;
      var v :| v in h.versions && v >= h.objects[o].minVersion;
      assert v in Next(h, step).versions;
    } else {
      OtherLimits(h, step, o, version);
    }
  }

  lemma OtherLimits(h: Host, step: Step, o: nat, version: nat)
    requires Enabled(h, step) && AtLeast(h, o, version) && !Ending(step)
    ensures AtLeast(Next(h, step), o, version)
    ensures forall r :: r in h.codeOf ==> r in Next(h, step).codeOf && Next(h, step).codeOf[r] == h.codeOf[r]
    ensures UsesObject(step, o) ==> step.root in h.codeOf && version <= h.codeOf[step.root]
  {
    hide CanAct, EndRoot, ForeignEnded, AllForeignEnded, LinkGone, Settled;
    var v :| v in h.versions && v >= h.objects[o].minVersion;
    var q := Next(h, step);
    if step.Commit? {
      assert step.version in q.versions && q.objects[o].minVersion <= step.version;
    } else if step.Retire? {
      var above :| above in h.versions && above > step.version;
      assert v in q.versions || above in q.versions;
    } else {
      KeepsLimit(h, step, o);
      hide Next;
      assert v in q.versions;
    }
  }

  lemma KeepsLimit(h: Host, step: Step, o: nat)
    requires Enabled(h, step) && o in h.objects && !Ending(step) && !step.Commit? && !step.Retire?
    ensures var q := Next(h, step);
            && q.versions == h.versions && o in q.objects && q.objects[o].minVersion == h.objects[o].minVersion
            && forall r :: r in h.codeOf ==> r in q.codeOf && q.codeOf[r] == h.codeOf[r]
  {
    hide CanAct, Joined;
    if OffObjects(step) {
      OffObjectsKeep(h, step);
      OffObjectsCode(h, step);
      SameVersions(h, step);
      hide Next, Enabled;
    }
  }

  lemma SameVersions(h: Host, step: Step)
    requires Enabled(h, step) && OffObjects(step) && !step.Retire?
    ensures Next(h, step).versions == h.versions
  {
    hide CanAct, Admitted;
  }

  lemma {:induction false} NewCodeFrom(h: Host, steps: seq<Step>, o: nat, version: nat)
    requires IsRun(h, steps) && AtLeast(h, o, version)
    ensures forall i :: 0 <= i < |steps| && UsesObject(steps[i], o) ==>
              steps[i].root in End(h, steps).codeOf && version <= End(h, steps).codeOf[steps[i].root]
    ensures forall r :: r in h.codeOf ==> r in End(h, steps).codeOf && End(h, steps).codeOf[r] == h.codeOf[r]
    decreases |steps|
  {
    if steps != [] {
      LimitsStep(h, steps[0], o, version);
      hide Next, AtLeast, Enabled;
      NewCodeFrom(Next(h, steps[0]), steps[1..], o, version);
      assert forall i :: 0 < i < |steps| ==> steps[i] == steps[1..][i - 1];
    }
  }

  /**
   Whatever comes after a commit, no root of an older code version is ever admitted to an object that was gated:
   code from before the migration never runs on migrated state.
   */
  lemma NewCodeOnly(h: Host, version: nat, steps: seq<Step>, o: nat)
    requires Enabled(h, Commit(version)) && o in h.objects && h.objects[o].gate.Some?
    requires IsRun(Next(h, Commit(version)), steps)
    ensures var end := End(Next(h, Commit(version)), steps);
            forall i :: 0 <= i < |steps| && UsesObject(steps[i], o) ==>
              steps[i].root in end.codeOf && version <= end.codeOf[steps[i].root]
  {
    CommitInstalls(h, version, o);
    hide Next, AtLeast, Enabled;
    NewCodeFrom(Next(h, Commit(version)), steps, o, version);
  }

  // ---------------------------------------------------------------- a call nobody awaits

  lemma {:induction false} RunOn(h: Host, steps: seq<Step>, step: Step)
    requires IsRun(h, steps) && Enabled(End(h, steps), step)
    ensures IsRun(h, steps + [step]) && End(h, steps + [step]) == Next(End(h, steps), step)
    decreases |steps|
  {
    if steps == [] {
      assert ([] + [step])[1..] == [];
    } else {
      RunOn(Next(h, steps[0]), steps[1..], step);
      assert (steps + [step])[1..] == steps[1..] + [step];
      hide Next;
    }
  }

  /** Nothing of the root runs or will, and the object has a lease of it that a gate waits for. */
  predicate Leaked(h: Host, r: nat, o: nat) {
    && r in h.codeOf && !Alive(h, r) && !Runs(h, r) && o in h.objects && r in h.objects[o].leases
    && (h.objects[o].gate.Some? ==> r in h.objects[o].gate.value)
  }

  /** Root 7 and object 0, with `running` calls of the root in the object. */
  predicate Stage(h: Host, joined: bool, running: nat, leased: bool) {
    && h.versions == {1} && h.codeOf == map[7 := 1] && h.joined == (if joined then map[7 := 1] else map[]) && h.foreign == map[]
    && h.invocations == multiset{}[Invocation(7, 0) := running]
    && h.objects == map[0 := Object(if leased then map[7 := 1] else map[], None, 0)]
    && h.touches == (if leased then map[7 := {0}] else map[]) && h.out == map[]
  }

  lemma StageStarts()
    ensures var h := Next(Idle({1}), NewObject(0)); Enabled(h, Start(7, 1)) && Stage(Next(h, Start(7, 1)), true, 0, false)
  {
  }

  lemma StageCalls(h: Host, joined: bool, running: nat, leased: bool)
    requires Stage(h, joined, running, leased) && (joined || running > 0)
    ensures Enabled(h, Call(7, 0)) && Stage(Next(h, Call(7, 0)), joined, running + 1, true)
  {
    if running > 0 { assert Invocation(7, 0) in h.invocations && Invocation(7, 0).root == 7; }
    assert h.invocations + multiset{Invocation(7, 0)} == multiset{}[Invocation(7, 0) := running + 1];
    assert {} + {0} == {0};
  }

  lemma StageSettles(h: Host, running: nat)
    requires Stage(h, true, running, true)
    ensures Enabled(h, Settle(7)) && Stage(Next(h, Settle(7)), false, running, false)
  {
    var q := Next(h, Settle(7));
    assert q.joined == map[] && q.touches == map[];
    assert q.objects[0].leases == map[];
  }

  lemma StageReturns(h: Host, running: nat)
    requires Stage(h, false, running, true) && running > 0
    ensures Enabled(h, Return(7, 0)) && Stage(Next(h, Return(7, 0)), false, running - 1, true)
  {
    assert h.invocations - multiset{Invocation(7, 0)} == multiset{}[Invocation(7, 0) := running - 1];
  }

  lemma StageLeaks(h: Host)
    requires Stage(h, false, 0, true)
    ensures Leaked(h, 7, 0)
  {
    assert h.invocations == multiset{};
  }

  /** Root 7 ends while a call it made to object 0 runs; that call makes another, and its lease stays for good. */
  lemma UnawaitedCallLeaks()
    ensures exists steps :: IsRun(Idle({1}), steps) && Leaked(End(Idle({1}), steps), 7, 0)
  {
    StageStarts();
    assert Enabled(Idle({1}), NewObject(0));
    hide Idle, Stage, Next, Enabled, Leaked, Reachable;
    ReachesItself(Idle({1}));
    var h := OneMore(Idle({1}), NewObject(0));
    h := OneMore(h, Start(7, 1));
    StageCalls(h, true, 0, false);
    h := OneMore(h, Call(7, 0));
    StageSettles(h, 1);
    h := OneMore(h, Settle(7));
    StageCalls(h, false, 1, false);
    h := OneMore(h, Call(7, 0));
    StageReturns(h, 2);
    h := OneMore(h, Return(7, 0));
    StageReturns(h, 1);
    h := OneMore(h, Return(7, 0));
    StageLeaks(h);
    ByRun(h);
  }

  ghost predicate Reachable(h: Host) {
    exists steps :: IsRun(Idle({1}), steps) && End(Idle({1}), steps) == h
  }

  lemma ReachesItself(h: Host)
    requires h == Idle({1})
    ensures Reachable(h)
  {
    assert IsRun(Idle({1}), []) && End(Idle({1}), []) == h;
  }

  lemma OneMore(h: Host, step: Step) returns (next: Host)
    requires Reachable(h) && Enabled(h, step)
    ensures next == Next(h, step) && Reachable(next)
  {
    var steps :| IsRun(Idle({1}), steps) && End(Idle({1}), steps) == h;
    RunOn(Idle({1}), steps, step);
    next := Next(h, step);
  }

  lemma ByRun(h: Host)
    requires Reachable(h) && Leaked(h, 7, 0)
    ensures exists steps :: IsRun(Idle({1}), steps) && Leaked(End(Idle({1}), steps), 7, 0)
  {
  }

  lemma EndBlocks(h: Host, x: nat, r: nat, o: nat)
    requires Leaked(h, r, o) && x != r
    ensures Leaked(EndRoot(h, x), r, o)
  {
  }

  lemma ForeignEndedBlocks(h: Host, x: nat, link: nat, r: nat, o: nat)
    requires Leaked(h, r, o)
    ensures Leaked(ForeignEnded(h, x, link), r, o)
  {
    if x != r { EndBlocks(h, x, r, o); }
    hide EndRoot, Runs;
  }

  lemma {:induction false} AllForeignEndedBlocks(h: Host, order: seq<nat>, link: nat, r: nat, o: nat)
    requires Leaked(h, r, o)
    ensures Leaked(AllForeignEnded(h, order, link), r, o)
    decreases |order|
  {
    if order != [] {
      ForeignEndedBlocks(h, order[0], link, r, o);
      hide Leaked, ForeignEnded;
      AllForeignEndedBlocks(ForeignEnded(h, order[0], link), order[1..], link, r, o);
    }
  }

  lemma BlocksStep(h: Host, step: Step, r: nat, o: nat)
    requires Leaked(h, r, o) && Enabled(h, step) && !(step.Arrive? && step.root == r)
    ensures Leaked(Next(h, step), r, o)
  {
    hide EndRoot, ForeignEnded, AllForeignEnded;
    if OffObjects(step) {
      OffObjectsKeep(h, step);
      OffObjectsCode(h, step);
      StaysDead(h, step, r);
      hide Next, Enabled;
    } else if Ending(step) {
      EndingBlocks(h, step, r, o);
    } else {
      StillLeaked(h, step, r, o);
    }
  }

  lemma AliveBefore(h: Host, step: Step, r: nat)
    requires r in h.codeOf && Enabled(h, step) && OffObjects(step) && !(step.Arrive? && step.root == r)
    ensures Alive(Next(h, step), r) ==> Alive(h, r)
  {
    hide CanAct, Admitted;
  }

  lemma StaysDead(h: Host, step: Step, r: nat)
    requires r in h.codeOf && !Alive(h, r) && !Runs(h, r) && Enabled(h, step) && OffObjects(step) && !(step.Arrive? && step.root == r)
    ensures !Alive(Next(h, step), r) && !Runs(Next(h, step), r)
  {
    FewerInvocations(h, step);
    AliveBefore(h, step, r);
    hide Next, Enabled;
  }

  lemma EndingBlocks(h: Host, step: Step, r: nat, o: nat)
    requires Leaked(h, r, o) && Enabled(h, step) && Ending(step)
    ensures Leaked(Next(h, step), r, o)
  {
    hide EndRoot, ForeignEnded, AllForeignEnded;
    match step
    case LinkClosed(link, order) => AllForeignEndedBlocks(h, order, link, r, o);
    case Settle(x) => EndBlocks(h.(joined := h.joined - {x}), x, r, o);
    case RootEnd(x, link) => ForeignEndedBlocks(h, x, link, r, o);
  }

  lemma StillLeaked(h: Host, step: Step, r: nat, o: nat)
    requires Leaked(h, r, o) && Enabled(h, step) && !OffObjects(step) && !Ending(step)
    ensures Leaked(Next(h, step), r, o)
  {
    hide CanAct, EndRoot, ForeignEnded, AllForeignEnded, LinkGone, Settled;
    if step.Call? { OtherCalls(h, step.root, step.target, r); }
  }

  lemma OtherCalls(h: Host, x: nat, o: nat, r: nat)
    requires Enabled(h, Call(x, o)) && !Alive(h, r) && !Runs(h, r)
    ensures x != r && !Runs(Next(h, Call(x, o)), r)
  {
    forall i | i in Next(h, Call(x, o)).invocations ensures i.root != r {
      assert i in h.invocations || i == Invocation(x, o);
    }
  }

  /** No reload commits while the object is gated, in any state of the run. */
  predicate NeverCommitsGated(h: Host, steps: seq<Step>, o: nat)
    requires IsRun(h, steps)
    decreases |steps|
  {
    steps != [] ==>
      && (steps[0].Commit? ==> o in h.objects && h.objects[o].gate.None?)
      && NeverCommitsGated(Next(h, steps[0]), steps[1..], o)
  }

  /**
   From then on the lease holds this gate and every later one, through aborts, commits of other objects and whatever
   else comes: unless the root comes over a link again no reload commits while the object is gated.
   */
  lemma {:induction false} LeakBlocksReload(h: Host, steps: seq<Step>, r: nat, o: nat)
    requires IsRun(h, steps) && Leaked(h, r, o)
    requires forall i :: 0 <= i < |steps| ==> !(steps[i].Arrive? && steps[i].root == r)
    ensures NeverCommitsGated(h, steps, o) && Leaked(End(h, steps), r, o)
    decreases |steps|
  {
    if steps != [] {
      BlocksStep(h, steps[0], r, o);
      assert steps[0].Commit? ==> h.objects[o].gate.None?;
      assert forall i :: 0 < i < |steps| ==> steps[i] == steps[1..][i - 1];
      hide Next, Leaked, Enabled;
      LeakBlocksReload(Next(h, steps[0]), steps[1..], r, o);
    }
  }
}
