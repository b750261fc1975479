/**
 Reload across hosts: a server and its children over links that keep order, each step of the coordinator, of a
 child and of the links, and what every run keeps.
 */
module Cluster {
  import opened Wrappers

  /** From the server: the reload protocol, calls of roots of a code version, and versions that retired. */
  datatype Down = Prepare(id: nat, version: nat) | Commit(id: nat) | Abort(id: nat) | Work(version: nat) | Retire(version: nat)

  datatype Up = Hello(version: nat) | VoteOk(id: nat) | VoteError(id: nat)

  // ---------------------------------------------------------------- a child

  datatype Phase = Loading | Preparing | Prepared

  /** What a child does about a prepare, from its arrival on. */
  datatype Operation = Operation(id: nat, version: nat, phase: Phase, cancelled: bool)

  /** `allowed`: what the parent retired, so this child may. */
  datatype Child = Child(current: nat, previous: Option<nat>, allowed: nat, op: Option<Operation>)

  /** The child's state with the votes it sends. */
  datatype Reaction = Reaction(child: Child, votes: seq<Up>)

  function Cancel(c: Child): Child {
    if c.op.None? then c
    else if c.op.value.phase.Prepared? then c.(op := None)
    else c.(op := Some(c.op.value.(cancelled := true)))
  }

  function Install(c: Child): Child
    requires c.op.Some?
  {
    Child(c.op.value.version, Some(c.current), c.allowed, None)
  }

  function Handle(c: Child, f: Down): Reaction {
    match f
    case Prepare(id, version) =>
      if c.op.Some? then Reaction(c, [VoteError(id)])
      else Reaction(c.(op := Some(Operation(id, version, Loading, false))), [])
    case Commit(id) =>
      if c.op.Some? && c.op.value.id == id && c.op.value.phase.Prepared? then Reaction(Install(c), []) else Reaction(c, [])
    case Abort(id) => Reaction(if c.op.Some? && c.op.value.id == id then Cancel(c) else c, [])
    case Work(_) => Reaction(c, [])
    case Retire(version) => Reaction(c.(allowed := if version > c.allowed then version else c.allowed), [])
  }

  /** The modules are loaded: preparing starts. */
  function Loaded(c: Child): Child {
    if c.op.Some? && c.op.value.phase.Loading? && !c.op.value.cancelled then c.(op := Some(c.op.value.(phase := Preparing)))
    else c
  }

  /** Everything up to the commit is done, the previous version retired: the vote. */
  function PrepareDone(c: Child): Reaction {
    if c.op.Some? && c.op.value.phase.Preparing? && !c.op.value.cancelled && c.previous.None? && c.op.value.version > c.current
    then Reaction(c.(op := Some(c.op.value.(phase := Prepared))), [VoteOk(c.op.value.id)])
    else Reaction(c, [])
  }

  /** Loading or preparing failed, or what was cancelled has unwound: the slot is free. */
  function PrepareFailed(c: Child): Reaction {
    if c.op.Some? && !c.op.value.phase.Prepared?
    then Reaction(c.(op := None), if c.op.value.cancelled then [] else [VoteError(c.op.value.id)])
    else Reaction(c, [])
  }

  /** Without a deadline forcing it, a child retires what its parent retired. */
  function RetireAllowed(c: Child): Child {
    if c.previous.Some? && c.previous.value <= c.allowed then c.(previous := None) else c
  }

  function RetireForced(c: Child): Child {
    c.(previous := None)
  }

  // ---------------------------------------------------------------- the server

  datatype Ask = NoAsk | Asked(id: nat) | Voted(id: nat)

  /** A child and its link, if `open`: what the server knows of it, and the frames on their way. */
  datatype Peer = Peer(
    open: bool,
    synced: bool,
    reconciling: bool,
    version: Option<nat>,
    waiting: bool,
    ask: Ask,
    down: seq<Down>,
    up: seq<Up>,
    child: Child)

  /** A cluster reload that runs; its id once the prepares are out. */
  datatype Run = Run(version: nat, id: Option<nat>, participants: set<nat>, local: bool, failed: bool)

  /** `plans`: the code version each reload id asks for; `installed`: the versions this server ever ran. */
  datatype Server = Server(
    current: nat,
    previous: Option<nat>,
    run: Option<Run>,
    plans: map<nat, nat>,
    nextId: nat,
    committed: set<nat>,
    aborted: set<nat>,
    installed: set<nat>)

  datatype System = System(server: Server, peers: map<nat, Peer>)

  function Oldest(s: Server): nat {
    if s.previous.Some? then s.previous.value else s.current
  }

  function Sent(p: Peer, f: Down): Peer {
    p.(down := p.down + [f])
  }

  /** A link closes: the child gives up what it prepares, and the server forgets the connection. */
  function Closed(p: Peer): Peer {
    Peer(false, false, false, None, false, NoAsk, [], [], Cancel(p.child))
  }

  /** A child in step may have missed earlier retirements: the newest of them stands for all. */
  function Announced(s: Server, p: Peer): Peer {
    if Oldest(s) > 1 then Sent(p, Retire(Oldest(s) - 1)) else p
  }

  /** A child said which version it runs, or the reload that kept it waiting ended. */
  function PeerHello(s: Server, p: Peer, version: nat): Peer {
    if version > s.current then Closed(p)
    else if s.run.Some? then p.(version := Some(version), waiting := true)
    else if version == s.current then Announced(s, p.(version := Some(version), synced := true, waiting := false))
    else p.(version := Some(version), reconciling := true, waiting := false)
  }

  /** The run is over, and no hello stays undecided. */
  function Ended(s: Server, peers: map<nat, Peer>): System {
    var s1 := s.(run := None);
    System(s1, map l | l in peers ::
      if peers[l].open && peers[l].waiting && peers[l].version.Some? then PeerHello(s1, peers[l], peers[l].version.value)
      else peers[l])
  }

  function Synced(peers: map<nat, Peer>): set<nat> {
    set l | l in peers && peers[l].open && peers[l].synced
  }

  // ---------------------------------------------------------------- steps

  datatype Step =
    | Begin(version: nat)
    | GiveUp
    | SendPrepares
    | PreparedHere(ok: bool)
    | Deadline(link: nat)
    | CommitAll
    | AbortAll
    | Reconcile(link: nat)
    | ReconcileVoted(link: nat)
    | RetireHere
    | SendWork(link: nat, version: nat)
    | Receive(link: nat)
    | Connect(link: nat)
    | Lose(link: nat)
    | ChildReceive(link: nat)
    | ChildStep(link: nat, kind: ChildKind)

  datatype ChildKind = Load | Done | Fail | RetireOld | RetireNow

  function With(n: System, l: nat, p: Peer): System {
    n.(peers := n.peers[l := p])
  }

  /** The link of a participant goes: its missing vote fails the reload. */
  function LoseLink(n: System, l: nat): System
    requires l in n.peers
  {
    var s := n.server;
    var run := if s.run.Some? && l in s.run.value.participants then
                 Some(s.run.value.(participants := s.run.value.participants - {l},
                                   failed := s.run.value.failed || n.peers[l].ask.Asked?))
               else s.run;
    System(s.(run := run), n.peers[l := Closed(n.peers[l])])
  }

  /** No vote came, or it says no: a cluster reload fails, a reconciliation closes the link. */
  function NoVote(n: System, l: nat): System
    requires l in n.peers
  {
    var p, s := n.peers[l], n.server;
    if !p.ask.Asked? then n
    else if s.run.Some? && s.run.value.id == Some(p.ask.id) then n.(server := s.(run := Some(s.run.value.(failed := true))))
    else LoseLink(n, l)
  }

  function OnReceive(n: System, l: nat): System
    requires l in n.peers && n.peers[l].up != []
  {
    var p := n.peers[l].(up := n.peers[l].up[1..]);
    match n.peers[l].up[0]
    case Hello(version) =>
      if version > n.server.current then LoseLink(n, l) else With(n, l, PeerHello(n.server, p, version))
    case VoteOk(id) => With(n, l, if p.ask == Asked(id) then p.(ask := Voted(id)) else p)
    case VoteError(id) => if p.ask == Asked(id) then NoVote(With(n, l, p), l) else With(n, l, p)
  }

  function CommitServer(n: System): Server
    requires n.server.run.Some? && n.server.run.value.id.Some?
  {
    var s, r := n.server, n.server.run.value;
    s.(current := r.version, previous := Some(s.current), committed := s.committed + {r.id.value},
       installed := s.installed + {r.version})
  }

  function CommitPeers(n: System): map<nat, Peer>
    requires n.server.run.Some? && n.server.run.value.id.Some?
  {
    var r := n.server.run.value;
    map l | l in n.peers ::
      if l in r.participants then Sent(n.peers[l], Commit(r.id.value)).(version := Some(r.version), ask := NoAsk)
      else n.peers[l]
  }

  /** The version is installed here, then every participant is told, then whoever waited is decided. */
  function OnCommitAll(n: System): System
    requires n.server.run.Some? && n.server.run.value.id.Some?
  {
    Ended(CommitServer(n), CommitPeers(n))
  }

  function AbortServer(n: System): Server
    requires n.server.run.Some? && n.server.run.value.id.Some?
  {
    n.server.(aborted := n.server.aborted + {n.server.run.value.id.value})
  }

  function AbortPeers(n: System): map<nat, Peer>
    requires n.server.run.Some? && n.server.run.value.id.Some?
  {
    var r := n.server.run.value;
    map l | l in n.peers ::
      if l in r.participants then Sent(n.peers[l], Abort(r.id.value)).(ask := NoAsk) else n.peers[l]
  }

  function OnAbortAll(n: System): System
    requires n.server.run.Some? && n.server.run.value.id.Some?
  {
    Ended(AbortServer(n), AbortPeers(n))
  }

  function OnSendPrepares(n: System): System
    requires n.server.run.Some?
  {
    var s, r := n.server, n.server.run.value;
    var id := s.nextId;
    var participants := Synced(n.peers);
    System(s.(run := Some(r.(id := Some(id), participants := participants)), plans := s.plans[id := r.version],
              nextId := id + 1),
           map l | l in n.peers ::
             if l in participants then Sent(n.peers[l], Prepare(id, r.version)).(ask := Asked(id)) else n.peers[l])
  }

  /** One turn of bringing a child up: it is in step, or it is asked to prepare the current version. */
  function OnReconcile(n: System, l: nat): System
    requires l in n.peers
  {
    var p, s := n.peers[l], n.server;
    if p.version == Some(s.current) then With(n, l, Announced(s, p.(synced := true, reconciling := false)))
    else
      var id := s.nextId;
      System(s.(plans := s.plans[id := s.current], nextId := id + 1),
             n.peers[l := Sent(Announced(s, p), Prepare(id, s.current)).(ask := Asked(id))])
  }

  function OnReconcileVoted(n: System, l: nat): System
    requires l in n.peers && n.peers[l].ask.Voted?
  {
    var p, s := n.peers[l], n.server;
    var id := p.ask.id;
    if id !in s.plans || s.plans[id] != s.current then
      System(s.(aborted := s.aborted + {id}), n.peers[l := Sent(p, Abort(id)).(ask := NoAsk)])
    else
      System(s.(committed := s.committed + {id}),
             n.peers[l := Sent(p, Commit(id)).(ask := NoAsk, version := Some(s.current))])
  }

  function OnRetire(n: System): System
    requires n.server.previous.Some?
  {
    System(n.server.(previous := None),
           map l | l in n.peers :: if n.peers[l].open then Sent(n.peers[l], Retire(n.server.previous.value)) else n.peers[l])
  }

  function OnChildReceive(n: System, l: nat): System
    requires l in n.peers && n.peers[l].down != []
  {
    var p := n.peers[l];
    var r := Handle(p.child, p.down[0]);
    With(n, l, p.(down := p.down[1..], child := r.child, up := p.up + r.votes))
  }

  function OnChildStep(c: Child, kind: ChildKind): Reaction {
    match kind
    case Load => Reaction(Loaded(c), [])
    case Done => PrepareDone(c)
    case Fail => PrepareFailed(c)
    case RetireOld => Reaction(RetireAllowed(c), [])
    case RetireNow => Reaction(RetireForced(c), [])
  }

  /** Whether a step can be taken. */
  predicate Enabled(n: System, s: Step) {
    match s
    case Begin(version) => n.server.run.None? && version > n.server.current
    case GiveUp => n.server.run.Some? && n.server.run.value.id.None?
    case SendPrepares => n.server.run.Some? && n.server.run.value.id.None? && n.server.previous.None?
    case PreparedHere(_) => n.server.run.Some? && n.server.run.value.id.Some?
    case Deadline(l) => l in n.peers && n.peers[l].open
    case CommitAll =>
      && n.server.run.Some? && n.server.run.value.id.Some? && !n.server.run.value.failed && n.server.run.value.local
      && forall l :: l in n.server.run.value.participants && l in n.peers ==> n.peers[l].ask.Voted?
    case AbortAll => n.server.run.Some? && n.server.run.value.id.Some? && n.server.run.value.failed
    case Reconcile(l) => l in n.peers && n.peers[l].open && n.peers[l].reconciling && n.peers[l].ask.NoAsk? && n.server.run.None?
    case ReconcileVoted(l) => l in n.peers && n.peers[l].open && n.peers[l].reconciling && n.peers[l].ask.Voted?
    case RetireHere => n.server.previous.Some?
    case SendWork(l, version) => l in n.peers && n.peers[l].open && n.peers[l].synced && version <= n.server.current
    case Receive(l) => l in n.peers && n.peers[l].open && n.peers[l].up != []
    case Connect(l) => l in n.peers && !n.peers[l].open
    case Lose(l) => l in n.peers && n.peers[l].open
    case ChildReceive(l) => l in n.peers && n.peers[l].open && n.peers[l].down != []
    case ChildStep(l, _) => l in n.peers
  }

  function Next(n: System, s: Step): System
    requires Enabled(n, s)
  {
    match s
    case Begin(version) => n.(server := n.server.(run := Some(Run(version, None, {}, false, false))))
    case GiveUp => Ended(n.server, n.peers)
    case SendPrepares => OnSendPrepares(n)
    case PreparedHere(ok) =>
      n.(server := n.server.(run := Some(if ok then n.server.run.value.(local := true) else n.server.run.value.(failed := true))))
    case Deadline(l) => NoVote(n, l)
    case CommitAll => OnCommitAll(n)
    case AbortAll => OnAbortAll(n)
    case Reconcile(l) => OnReconcile(n, l)
    case ReconcileVoted(l) => OnReconcileVoted(n, l)
    case RetireHere => OnRetire(n)
    case SendWork(l, version) => With(n, l, Sent(n.peers[l], Work(version)))
    case Receive(l) => OnReceive(n, l)
    case Connect(l) => With(n, l, n.peers[l].(open := true, up := [Up.Hello(n.peers[l].child.current)]))
    case Lose(l) => LoseLink(n, l)
    case ChildReceive(l) => OnChildReceive(n, l)
    case ChildStep(l, kind) =>
      var r := OnChildStep(n.peers[l].child, kind);
      With(n, l, n.peers[l].(child := r.child, up := if n.peers[l].open then n.peers[l].up + r.votes else n.peers[l].up))
  }

  // ---------------------------------------------------------------- what every run keeps

  /** The version a child will run once the commits on the way have arrived. */
  function After(plans: map<nat, nat>, version: nat, down: seq<Down>): nat
    decreases |down|
  {
    if down == [] then version
    else After(plans, if down[0].Commit? && down[0].id in plans then plans[down[0].id] else version, down[1..])
  }

  /** No call of a code version arrives before the commit that installs it. */
  predicate WorkInOrder(plans: map<nat, nat>, version: nat, down: seq<Down>)
    decreases |down|
  {
    down != [] ==>
      && (down[0].Work? ==> down[0].version <= version)
      && WorkInOrder(plans, if down[0].Commit? && down[0].id in plans then plans[down[0].id] else version, down[1..])
  }

  /** The server's books. */
  ghost predicate Booked(s: Server) {
    && s.committed !! s.aborted
    && (forall id :: id in s.plans ==> id < s.nextId)
    && s.committed <= s.plans.Keys && s.aborted <= s.plans.Keys
    && (forall id :: id in s.committed ==> s.plans[id] in s.installed)
    && s.current in s.installed && (forall v :: v in s.installed ==> v <= s.current)
    && (s.previous.Some? ==> s.previous.value < s.current)
    && (s.run.Some? ==> s.run.value.version > s.current)
    && (s.run.Some? && s.run.value.id.Some? ==>
          var id := s.run.value.id.value;
          && id in s.plans && s.plans[id] == s.run.value.version && s.previous.None?
          && id !in s.committed && id !in s.aborted)
    && (s.run.Some? && s.run.value.id.None? ==> s.run.value.participants == {})
  }

  predicate IsRunId(s: Server, id: nat) {
    s.run.Some? && s.run.value.id == Some(id)
  }

  /** The prepared operation that waits for the outcome of `id`. */
  predicate Holds(s: Server, c: Child, id: nat) {
    c.op.Some? && c.op.value == Operation(id, c.op.value.version, Prepared, false)
    && id in s.plans && c.op.value.version == s.plans[id]
  }

  /** What is on a link fits what the server asked, what it decided, and what the child does. */
  ghost predicate Framed(s: Server, p: Peer) {
    && (forall f :: f in p.down && f.Prepare? ==> f.id in s.plans && s.plans[f.id] == f.version)
    && (forall f :: f in p.down && f.Commit? ==> f.id in s.committed && Holds(s, p.child, f.id))
    && (forall i, j :: 0 <= i < j < |p.down| ==> !(p.down[i].Commit? && p.down[j].Commit?))
    && (forall f :: f in p.down && f.Abort? ==> f.id in s.aborted)
    && (forall f :: f in p.down && f.Retire? ==> f.version < Oldest(s))
    && (forall u :: u in p.up && !u.Hello? ==> u.id in s.plans)
    && (p.child.op.Some? ==> p.child.op.value.id in s.plans && p.child.op.value.version == s.plans[p.child.op.value.id])
    && (p.child.op.Some? && p.child.op.value.phase.Prepared? ==>
          p.child.op.value.version > p.child.current && p.child.previous.None?)
    && p.child.allowed < Oldest(s)
    && (!p.ask.NoAsk? ==> p.ask.id in s.plans && p.ask.id !in s.committed && p.ask.id !in s.aborted)
    && (p.ask.Asked? && VoteOk(p.ask.id) in p.up ==> Holds(s, p.child, p.ask.id))
    && (p.ask.Voted? ==> Holds(s, p.child, p.ask.id))
  }

  /** What the server believes of a child is what the child runs, once the frames on the way are taken. */
  ghost predicate Known(s: Server, p: Peer) {
    && (p.version.Some? ==> After(s.plans, p.child.current, p.down) == p.version.value && p.version.value <= s.current
                            && forall u :: u in p.up ==> !u.Hello?)
    && (p.version.None? ==> p.ask.NoAsk? && !p.synced && !p.reconciling && !p.waiting
                            && forall f :: f in p.down ==> f.Retire?)
    && (forall u :: u in p.up && u.Hello? ==> u.version == p.child.current)
    && (forall i :: 0 < i < |p.up| ==> !p.up[i].Hello?)
    && WorkInOrder(s.plans, p.child.current, p.down)
  }

  /** A usable child is in step; nobody else is asked by a cluster reload, and nobody in step by a reconciliation. */
  ghost predicate Fenced(s: Server, l: nat, p: Peer) {
    && (p.synced ==> p.version == Some(s.current) && !p.reconciling && !p.waiting)
    && (p.reconciling ==> !p.waiting && p.version.Some?)
    && (p.waiting ==> p.ask.NoAsk? && s.run.Some? && p.version.Some?)
    && (!p.ask.NoAsk? ==> if IsRunId(s, p.ask.id) then l in s.run.value.participants else p.reconciling)
    && (s.run.Some? && s.run.value.id.Some? ==>
          (p.synced <==> l in s.run.value.participants)
          && (p.synced ==> !p.ask.NoAsk? && p.ask.id == s.run.value.id.value))
    && (s.run.Some? && s.run.value.id.None? ==> p.synced ==> p.ask.NoAsk?)
    && (s.run.None? && p.synced ==> p.ask.NoAsk?)
  }

  ghost predicate PeerOk(s: Server, l: nat, p: Peer) {
    && Framed(s, p) && Known(s, p) && Fenced(s, l, p)
    && (!p.open ==> p.down == [] && p.up == [] && p.version.None?)
  }

  predicate SameAskIsRun(s: Server, a: Ask, b: Ask) {
    !a.NoAsk? && !b.NoAsk? && a.id == b.id ==> IsRunId(s, a.id)
  }

  /** Only a cluster reload asks several children under one id. */
  ghost predicate OwnIds(s: Server, peers: map<nat, Peer>) {
    forall l, x :: l in peers && x in peers && l != x ==> SameAskIsRun(s, peers[l].ask, peers[x].ask)
  }

  ghost predicate Inv(n: System) {
    && Booked(n.server) && OwnIds(n.server, n.peers)
    && (forall l :: l in n.peers ==> PeerOk(n.server, l, n.peers[l]))
    && (n.server.run.Some? ==> n.server.run.value.participants <= Synced(n.peers))
  }

  // ---------------------------------------------------------------- frames on a link

  lemma {:induction false} AfterAppend(plans: map<nat, nat>, version: nat, down: seq<Down>, f: Down)
    ensures After(plans, version, down + [f])
         == if f.Commit? && f.id in plans then plans[f.id] else After(plans, version, down)
    ensures WorkInOrder(plans, version, down) && (f.Work? ==> f.version <= After(plans, version, down)) ==>
              WorkInOrder(plans, version, down + [f])
    decreases |down|
  {
    if down == [] {
      assert ([] + [f])[1..] == [];
    } else {
      assert (down + [f])[0] == down[0] && (down + [f])[1..] == down[1..] + [f];
      AfterAppend(plans, if down[0].Commit? && down[0].id in plans then plans[down[0].id] else version, down[1..], f);
    }
  }

  lemma {:induction false} AfterGrows(plans: map<nat, nat>, id: nat, v: nat, version: nat, down: seq<Down>)
    requires id !in plans && forall f :: f in down && f.Commit? ==> f.id in plans
    ensures After(plans[id := v], version, down) == After(plans, version, down)
    ensures WorkInOrder(plans[id := v], version, down) == WorkInOrder(plans, version, down)
    decreases |down|
  {
    if down != [] {
      assert down[0] in down;
      AfterGrows(plans, id, v, if down[0].Commit? && down[0].id in plans then plans[down[0].id] else version, down[1..]);
    }
  }

  lemma {:induction false} AfterPlain(plans: map<nat, nat>, version: nat, down: seq<Down>)
    requires forall f :: f in down ==> f.Retire?
    ensures After(plans, version, down) == version && WorkInOrder(plans, version, down)
    decreases |down|
  {
    if down != [] {
      assert down[0] in down;
      AfterPlain(plans, version, down[1..]);
    }
  }

  lemma InAppend<T>(list: seq<T>, x: T)
    ensures forall y :: y in list + [x] <==> y in list || y == x
  {
  }

  // ---------------------------------------------------------------- the server sends

  /** Sending what changes nothing for the child but its permission to retire. */
  lemma SentRetire(s: Server, l: nat, p: Peer, version: nat)
    requires PeerOk(s, l, p) && p.open && version < Oldest(s)
    ensures PeerOk(s, l, Sent(p, Retire(version)))
  {
    AfterAppend(s.plans, p.child.current, p.down, Retire(version));
    InAppend(p.down, Retire(version));
  }

  lemma AnnouncedOk(s: Server, l: nat, p: Peer)
    requires PeerOk(s, l, p) && p.open
    ensures PeerOk(s, l, Announced(s, p))
  {
    if Oldest(s) > 1 { SentRetire(s, l, p, Oldest(s) - 1); }
  }

  lemma SentWork(s: Server, l: nat, p: Peer, version: nat)
    requires PeerOk(s, l, p) && p.synced && version <= s.current
    ensures PeerOk(s, l, Sent(p, Work(version)))
  {
    AfterAppend(s.plans, p.child.current, p.down, Work(version));
    InAppend(p.down, Work(version));
  }

  // ---------------------------------------------------------------- hello, and the end of a reload

  lemma HelloOk(s: Server, l: nat, p: Peer)
    requires PeerOk(s, l, p) && p.open && p.up != [] && p.up[0].Hello? && p.up[0].version <= s.current
    ensures PeerOk(s, l, PeerHello(s, p.(up := p.up[1..]), p.up[0].version))
  {
    var version := p.up[0].version;
    assert p.up[0] in p.up;
    AfterPlain(s.plans, p.child.current, p.down);
    var q := p.(up := p.up[1..], version := Some(version));
    assert forall u :: u in q.up ==> u in p.up && !u.Hello? by {
      forall i | 0 <= i < |q.up| ensures q.up[i] in p.up && !q.up[i].Hello? { assert q.up[i] == p.up[i + 1]; }
    }
    if s.run.None? && version == s.current {
      AnnouncedOk(s, l, q.(synced := true, waiting := false));
    }
  }

  /** As when no reload runs, but for those who still wait for its end. */
  ghost predicate Loose(s: Server, p: Peer) {
    && Framed(s, p) && Known(s, p)
    && (p.synced ==> p.version == Some(s.current) && !p.reconciling && !p.waiting && p.ask.NoAsk?)
    && (p.reconciling ==> !p.waiting && p.version.Some?)
    && (p.waiting ==> p.ask.NoAsk? && p.version.Some?)
    && (!p.ask.NoAsk? ==> p.reconciling)
    && (!p.open ==> p.down == [] && p.up == [] && p.version.None?)
  }

  lemma WaitingOk(s: Server, l: nat, p: Peer)
    requires s.run.None? && Loose(s, p)
    ensures PeerOk(s, l, if p.open && p.waiting && p.version.Some? then PeerHello(s, p, p.version.value) else p)
  {
    if p.open && p.waiting && p.version.value == s.current {
      AnnouncedOk(s, l, p.(synced := true, waiting := false));
    }
  }

  lemma EndedAsks(s: Server, peers: map<nat, Peer>)
    requires OwnIds(s.(run := None), peers)
    ensures OwnIds(s.(run := None), Ended(s, peers).peers)
  {
    forall l | l in peers ensures Ended(s, peers).peers[l].ask == peers[l].ask || Ended(s, peers).peers[l].ask.NoAsk? {}
  }

  lemma EndedOk(s: Server, peers: map<nat, Peer>)
    requires Booked(s.(run := None)) && forall l :: l in peers ==> Loose(s.(run := None), peers[l])
    requires OwnIds(s.(run := None), peers)
    ensures Inv(Ended(s, peers))
  {
    EndedAsks(s, peers);
    hide Loose, PeerOk, Booked, PeerHello, OwnIds;
    forall l | l in peers ensures PeerOk(s.(run := None), l, Ended(s, peers).peers[l]) {
      WaitingOk(s.(run := None), l, peers[l]);
    }
  }

  lemma FramedSame(s: Server, t: Server, p: Peer)
    requires Framed(s, p) && Known(s, p) && t.plans == s.plans && Oldest(t) == Oldest(s) && s.current <= t.current
    requires s.committed <= t.committed && s.aborted <= t.aborted
    requires !p.ask.NoAsk? ==> p.ask.id !in t.committed && p.ask.id !in t.aborted
    ensures Framed(t, p) && Known(t, p)
  {
    assert forall c, id :: Holds(s, c, id) == Holds(t, c, id);
  }

  // ---------------------------------------------------------------- each step

  lemma BeginKeeps(n: System, version: nat)
    requires Inv(n) && n.server.run.None? && version > n.server.current
    ensures Inv(Next(n, Begin(version)))
  {
    var s := n.server;
    var t := s.(run := Some(Run(version, None, {}, false, false)));
    forall l | l in n.peers ensures PeerOk(t, l, n.peers[l]) { FramedSame(s, t, n.peers[l]); }
  }

  lemma GiveUpKeeps(n: System)
    requires Inv(n) && Enabled(n, GiveUp)
    ensures Inv(Next(n, GiveUp))
  {
    var s := n.server;
    forall l | l in n.peers ensures Loose(s.(run := None), n.peers[l]) { FramedSame(s, s.(run := None), n.peers[l]); }
    EndedOk(s, n.peers);
  }

  lemma FlagKeeps(n: System, run: Run)
    requires Inv(n) && n.server.run.Some?
    requires run == n.server.run.value.(local := run.local, failed := run.failed)
    ensures Inv(n.(server := n.server.(run := Some(run))))
  {
    var s, t := n.server, n.server.(run := Some(run));
    forall l | l in n.peers ensures PeerOk(t, l, n.peers[l]) { FramedSame(s, t, n.peers[l]); }
  }

  lemma LoseLinkKeeps(n: System, l: nat)
    requires Inv(n) && l in n.peers
    ensures Inv(LoseLink(n, l))
  {
    var s, t := n.server, LoseLink(n, l).server;
    forall x | x in n.peers ensures PeerOk(t, x, LoseLink(n, l).peers[x]) {
      if x == l { ClosedFramed(s, t, n.peers[l]); } else { FramedSame(s, t, n.peers[x]); }
    }
  }

  lemma ClosedFramed(s: Server, t: Server, p: Peer)
    requires Framed(s, p) && t.plans == s.plans && Oldest(t) == Oldest(s)
    ensures Framed(t, Closed(p)) && Known(t, Closed(p))
  {
  }

  lemma NoVoteKeeps(n: System, l: nat)
    requires Inv(n) && l in n.peers
    ensures Inv(NoVote(n, l))
  {
    var p, s := n.peers[l], n.server;
    if p.ask.Asked? {
      if s.run.Some? && s.run.value.id == Some(p.ask.id) {
        FlagKeeps(n, s.run.value.(failed := true));
      } else {
        LoseLinkKeeps(n, l);
      }
    }
  }

  /** One peer changes, the server does not. */
  lemma WithKeeps(n: System, l: nat, p: Peer)
    requires Inv(n) && l in n.peers && PeerOk(n.server, l, p)
    requires n.peers[l].open && n.peers[l].synced ==> p.open && p.synced
    requires p.ask.NoAsk? || (!n.peers[l].ask.NoAsk? && p.ask.id == n.peers[l].ask.id)
    ensures Inv(With(n, l, p))
  {
    hide PeerOk, Booked;
  }

  lemma PopUp(s: Server, l: nat, p: Peer)
    requires PeerOk(s, l, p) && p.open && p.up != [] && !p.up[0].Hello?
    ensures PeerOk(s, l, p.(up := p.up[1..]))
    ensures p.up[0].VoteOk? && p.ask == Asked(p.up[0].id) ==> PeerOk(s, l, p.(up := p.up[1..], ask := Voted(p.up[0].id)))
  {
    assert p.up[0] in p.up;
    assert forall i :: 0 <= i < |p.up[1..]| ==> p.up[1..][i] == p.up[i + 1];
    assert forall u :: u in p.up[1..] ==> u in p.up;
  }

  lemma ReceiveKeeps(n: System, l: nat)
    requires Inv(n) && l in n.peers && n.peers[l].open && n.peers[l].up != []
    ensures Inv(OnReceive(n, l))
  {
    var p := n.peers[l];
    match p.up[0]
    case Hello(version) =>
      if version > n.server.current { LoseLinkKeeps(n, l); }
      else {
        HelloOk(n.server, l, p);
        HelloNotSynced(n.server, p);
        WithKeeps(n, l, PeerHello(n.server, p.(up := p.up[1..]), version));
      }
    case VoteOk(id) =>
      PopUp(n.server, l, p);
      WithKeeps(n, l, if p.ask == Asked(id) then p.(up := p.up[1..], ask := Voted(id)) else p.(up := p.up[1..]));
    case VoteError(id) =>
      PopUp(n.server, l, p);
      WithKeeps(n, l, p.(up := p.up[1..]));
      NoVoteKeeps(With(n, l, p.(up := p.up[1..])), l);
  }

  lemma HelloNotSynced(s: Server, p: Peer)
    requires Known(s, p) && p.up != [] && p.up[0].Hello?
    ensures !p.synced
  {
    assert p.up[0] in p.up;
  }

  // -------- prepares go out

  lemma PlansGrow(s: Server, t: Server, p: Peer, id: nat, v: nat)
    requires Framed(s, p) && Known(s, p) && id !in s.plans && t.plans == s.plans[id := v]
    requires s.committed <= s.plans.Keys && Oldest(t) == Oldest(s) && t.current == s.current
    requires t.committed == s.committed && t.aborted == s.aborted
    ensures Framed(t, p) && Known(t, p)
  {
    AfterGrows(s.plans, id, v, p.child.current, p.down);
    assert forall x :: x in s.plans ==> t.plans[x] == s.plans[x];
    assert forall c, x :: Holds(s, c, x) ==> Holds(t, c, x);
  }

  /** A fresh id is asked of a child. */
  lemma AskedFramed(t: Server, p: Peer, id: nat, v: nat)
    requires Framed(t, p) && Known(t, p) && p.version.Some? && id in t.plans && t.plans[id] == v
    requires id !in t.committed && id !in t.aborted && VoteOk(id) !in p.up
    ensures var q := Sent(p, Prepare(id, v)).(ask := Asked(id)); Framed(t, q) && Known(t, q)
  {
    AfterAppend(t.plans, p.child.current, p.down, Prepare(id, v));
    InAppend(p.down, Prepare(id, v));
  }

  lemma FreshVote(s: Server, p: Peer, id: nat)
    requires Framed(s, p) && id !in s.plans
    ensures VoteOk(id) !in p.up
  {
    forall u | u in p.up ensures u != VoteOk(id) {}
  }

  lemma SendPreparesKeeps(n: System)
    requires Inv(n) && Enabled(n, SendPrepares)
    ensures Inv(OnSendPrepares(n))
  {
    var s, t, id := n.server, OnSendPrepares(n).server, n.server.nextId;
    forall l | l in n.peers ensures PeerOk(t, l, OnSendPrepares(n).peers[l]) {
      SendPreparesPeer(n, l);
    }
  }

  lemma SendPreparesPeer(n: System, l: nat)
    requires Inv(n) && Enabled(n, SendPrepares) && l in n.peers
    ensures PeerOk(OnSendPrepares(n).server, l, OnSendPrepares(n).peers[l])
  {
    var s, t, id, p := n.server, OnSendPrepares(n).server, n.server.nextId, n.peers[l];
    var v := s.run.value.version;
    PlansGrow(s, t, p, id, v);
    FreshVote(s, p, id);
    if p.open && p.synced { AskedFramed(t, p, id, v); }
  }

  lemma ReconcileKeeps(n: System, l: nat)
    requires Inv(n) && Enabled(n, Reconcile(l))
    ensures Inv(OnReconcile(n, l))
  {
    if n.peers[l].version == Some(n.server.current) {
      ReconcileInStep(n, l);
    } else {
      forall x | x in n.peers ensures PeerOk(OnReconcile(n, l).server, x, OnReconcile(n, l).peers[x]) {
        ReconcilePeer(n, l, x);
      }
      ReconcileBooks(n, l);
      hide PeerOk, Booked, OwnIds, Announced;
    }
  }

  /** Every id that is asked was given out. */
  lemma AsksOld(n: System)
    requires Inv(n)
    ensures forall x :: x in n.peers && !n.peers[x].ask.NoAsk? ==> n.peers[x].ask.id < n.server.nextId
  {
    forall x | x in n.peers && !n.peers[x].ask.NoAsk? ensures n.peers[x].ask.id < n.server.nextId {
      assert PeerOk(n.server, x, n.peers[x]);
      hide Known, Fenced;
    }
  }

  lemma ReconcileBooked(s: Server, t: Server)
    requires Booked(s) && t == s.(plans := s.plans[s.nextId := s.current], nextId := s.nextId + 1)
    ensures Booked(t)
  {
  }

  lemma ReconcileBooks(n: System, l: nat)
    requires Inv(n) && Enabled(n, Reconcile(l)) && n.peers[l].version != Some(n.server.current)
    ensures var t := OnReconcile(n, l);
            Booked(t.server) && OwnIds(t.server, t.peers) && (t.server.run.Some? ==> Synced(n.peers) <= Synced(t.peers))
  {
    hide PeerOk, Booked;
    var t := OnReconcile(n, l);
    ReconcileBooked(n.server, t.server);
    AsksOld(n);
    assert t.peers.Keys == n.peers.Keys && t.server.run == n.server.run && t.peers[l].ask == Asked(n.server.nextId);
    assert t.peers[l].open == n.peers[l].open && t.peers[l].synced == n.peers[l].synced;
    assert forall x :: x in n.peers && x != l ==> t.peers[x] == n.peers[x];
    hide OnReconcile;
  }

  lemma ReconcileInStep(n: System, l: nat)
    requires Inv(n) && Enabled(n, Reconcile(l)) && n.peers[l].version == Some(n.server.current)
    ensures Inv(OnReconcile(n, l))
  {
    var s, q := n.server, n.peers[l].(synced := true, reconciling := false);
    assert PeerOk(s, l, q);
    hide PeerOk;
    AnnouncedOk(s, l, q);
    WithKeeps(n, l, Announced(s, q));
  }

  lemma ReconcilePeer(n: System, l: nat, x: nat)
    requires Inv(n) && Enabled(n, Reconcile(l)) && x in n.peers && n.peers[l].version != Some(n.server.current)
    ensures PeerOk(OnReconcile(n, l).server, x, OnReconcile(n, l).peers[x])
  {
    var s, t, id := n.server, OnReconcile(n, l).server, n.server.nextId;
    var p := n.peers[x];
    if x == l {
      AnnouncedOk(s, l, p);
      FreshVote(s, Announced(s, p), id);
      PlansGrow(s, t, Announced(s, p), id, s.current);
      AskedFramed(t, Announced(s, p), id, s.current);
    } else {
      PlansGrow(s, t, p, id, s.current);
    }
  }

  // -------- outcomes go out

  /** A commit is sent to a child that holds the operation. */
  lemma CommitFramed(s: Server, t: Server, p: Peer, id: nat)
    requires Framed(s, p) && Known(s, p) && p.ask == Voted(id) && p.version.Some? && id in s.plans
    requires t.plans == s.plans && Oldest(t) == Oldest(s) && t.aborted == s.aborted && t.committed == s.committed + {id}
    requires s.committed !! s.aborted && s.plans[id] <= t.current
    ensures var q := Sent(p, Commit(id)).(ask := NoAsk, version := Some(s.plans[id])); Framed(t, q) && Known(t, q)
  {
    AfterAppend(s.plans, p.child.current, p.down, Commit(id));
    InAppend(p.down, Commit(id));
    assert forall c, x :: Holds(s, c, x) == Holds(t, c, x);
    assert forall i :: 0 <= i < |p.down| ==> p.down[i] in p.down;
  }

  lemma AbortFramed(s: Server, t: Server, p: Peer, id: nat)
    requires Framed(s, p) && Known(s, p) && p.version.Some?
    requires t.plans == s.plans && Oldest(t) == Oldest(s) && t.committed == s.committed && t.aborted == s.aborted + {id}
    requires t.current == s.current
    ensures var q := Sent(p, Abort(id)).(ask := NoAsk); Framed(t, q) && Known(t, q)
  {
    AfterAppend(s.plans, p.child.current, p.down, Abort(id));
    InAppend(p.down, Abort(id));
    assert forall c, x :: Holds(s, c, x) == Holds(t, c, x);
  }

  lemma CommitAllKeeps(n: System)
    requires Inv(n) && Enabled(n, CommitAll)
    ensures Inv(OnCommitAll(n))
  {
    hide Loose;
    forall l | l in n.peers ensures Loose(CommitServer(n).(run := None), CommitPeers(n)[l]) { CommitAllPeer(n, l); }
    EndedOk(CommitServer(n), CommitPeers(n));
  }

  lemma CommitAllPeer(n: System, l: nat)
    requires Inv(n) && Enabled(n, CommitAll) && l in n.peers
    ensures Loose(CommitServer(n).(run := None), CommitPeers(n)[l])
  {
    var s, r, p := n.server, n.server.run.value, n.peers[l];
    var t := CommitServer(n).(run := None);
    if l in r.participants { CommitFramed(s, t, p, r.id.value); } else { FramedSame(s, t, p); }
  }

  lemma AbortAllKeeps(n: System)
    requires Inv(n) && Enabled(n, AbortAll)
    ensures Inv(OnAbortAll(n))
  {
    hide Loose;
    forall l | l in n.peers ensures Loose(AbortServer(n).(run := None), AbortPeers(n)[l]) { AbortAllPeer(n, l); }
    EndedOk(AbortServer(n), AbortPeers(n));
  }

  lemma AbortAllPeer(n: System, l: nat)
    requires Inv(n) && Enabled(n, AbortAll) && l in n.peers
    ensures Loose(AbortServer(n).(run := None), AbortPeers(n)[l])
  {
    var s, r, t := n.server, n.server.run.value, AbortServer(n).(run := None);
    if l in r.participants { AbortFramed(s, t, n.peers[l], r.id.value); } else { FramedSame(s, t, n.peers[l]); }
  }

  /** Another child is asked under another id. */
  lemma OthersAsk(n: System, l: nat, x: nat)
    requires Inv(n) && Enabled(n, ReconcileVoted(l)) && x in n.peers && x != l && !n.peers[x].ask.NoAsk?
    ensures n.peers[x].ask.id != n.peers[l].ask.id
  {
    assert PeerOk(n.server, l, n.peers[l]);
  }

  lemma ReconcileVotedOwn(n: System, l: nat)
    requires Inv(n) && Enabled(n, ReconcileVoted(l))
    ensures PeerOk(OnReconcileVoted(n, l).server, l, OnReconcileVoted(n, l).peers[l])
  {
    var s, t, p := n.server, OnReconcileVoted(n, l).server, n.peers[l];
    assert PeerOk(s, l, p);
    if s.plans[p.ask.id] != s.current { AbortFramed(s, t, p, p.ask.id); } else { CommitFramed(s, t, p, p.ask.id); }
  }

  /** An outcome for one child's own id changes nothing for another. */
  lemma OutcomeElsewhere(s: Server, t: Server, l: nat, p: Peer, id: nat)
    requires PeerOk(s, l, p) && (p.ask.NoAsk? || p.ask.id != id)
    requires t == s.(committed := s.committed + {id}) || t == s.(aborted := s.aborted + {id})
    ensures PeerOk(t, l, p)
  {
    FramedSame(s, t, p);
  }

  lemma ReconcileVotedPeer(n: System, l: nat, x: nat)
    requires Inv(n) && Enabled(n, ReconcileVoted(l)) && x in n.peers
    ensures PeerOk(OnReconcileVoted(n, l).server, x, OnReconcileVoted(n, l).peers[x])
  {
    hide PeerOk;
    if x == l {
      ReconcileVotedOwn(n, l);
    } else {
      if !n.peers[x].ask.NoAsk? { OthersAsk(n, l, x); }
      OutcomeElsewhere(n.server, OnReconcileVoted(n, l).server, x, n.peers[x], n.peers[l].ask.id);
    }
  }

  /** A reconciliation's id is not the cluster reload's. */
  lemma ReconcileIdIsOwn(n: System, l: nat)
    requires Inv(n) && Enabled(n, ReconcileVoted(l))
    ensures !IsRunId(n.server, n.peers[l].ask.id) && n.peers[l].ask.id in n.server.plans
    ensures n.peers[l].ask.id !in n.server.committed && n.peers[l].ask.id !in n.server.aborted
  {
    assert PeerOk(n.server, l, n.peers[l]);
  }

  lemma ReconcileVotedBooked(s: Server, id: nat)
    requires Booked(s) && !IsRunId(s, id) && id in s.plans && id !in s.committed && id !in s.aborted
    ensures Booked(s.(aborted := s.aborted + {id}))
    ensures s.plans[id] == s.current ==> Booked(s.(committed := s.committed + {id}))
  {
  }

  lemma OwnIdsLess(s: Server, t: Server, peers: map<nat, Peer>, l: nat, p: Peer)
    requires OwnIds(s, peers) && t.run == s.run && l in peers && p.ask.NoAsk?
    ensures OwnIds(t, peers[l := p])
  {
  }

  lemma ReconcileVotedKeeps(n: System, l: nat)
    requires Inv(n) && Enabled(n, ReconcileVoted(l))
    ensures Inv(OnReconcileVoted(n, l))
  {
    var end := OnReconcileVoted(n, l);
    ReconcileIdIsOwn(n, l);
    ReconcileVotedBooked(n.server, n.peers[l].ask.id);
    OwnIdsLess(n.server, end.server, n.peers, l, end.peers[l]);
    hide PeerOk, Booked, OwnIds;
    forall x | x in n.peers ensures PeerOk(end.server, x, end.peers[x]) { ReconcileVotedPeer(n, l, x); }
  }

  // -------- the rest of the server

  lemma RetireKeeps(n: System)
    requires Inv(n) && Enabled(n, RetireHere)
    ensures Inv(OnRetire(n))
  {
    var s, t := n.server, OnRetire(n).server;
    forall l | l in n.peers ensures PeerOk(t, l, OnRetire(n).peers[l]) {
      RetirePeer(s, t, l, n.peers[l]);
      if n.peers[l].open { SentRetire(t, l, n.peers[l], s.previous.value); }
    }
  }

  lemma RetirePeer(s: Server, t: Server, l: nat, p: Peer)
    requires PeerOk(s, l, p) && Booked(s) && s.previous.Some? && t == s.(previous := None)
    ensures PeerOk(t, l, p)
  {
    assert forall c, id :: Holds(s, c, id) == Holds(t, c, id);
  }

  lemma ConnectKeeps(n: System, l: nat)
    requires Inv(n) && Enabled(n, Connect(l))
    ensures Inv(Next(n, Connect(l)))
  {
    assert PeerOk(n.server, l, n.peers[l]);
    WithKeeps(n, l, n.peers[l].(open := true, up := [Up.Hello(n.peers[l].child.current)]));
  }

  lemma WorkKeeps(n: System, l: nat, version: nat)
    requires Inv(n) && Enabled(n, SendWork(l, version))
    ensures Inv(Next(n, SendWork(l, version)))
  {
    SentWork(n.server, l, n.peers[l], version);
    WithKeeps(n, l, Sent(n.peers[l], Work(version)));
  }

  // -------- the child

  /** The next frame, taken. */
  function Taken(p: Peer): Peer
    requires p.down != []
  {
    var r := Handle(p.child, p.down[0]);
    p.(down := p.down[1..], child := r.child, up := p.up + r.votes)
  }

  lemma TakenDown(p: Peer)
    requires p.down != []
    ensures forall f :: f in p.down <==> f == p.down[0] || f in p.down[1..]
    ensures forall i :: 0 <= i < |p.down[1..]| ==> p.down[1..][i] == p.down[i + 1]
  {
  }

  /** What an abort does not concern stays held. */
  lemma TakenHolds(s: Server, p: Peer, id: nat)
    requires Framed(s, p) && p.down != [] && Holds(s, p.child, id) && p.down[0] != Commit(id) && p.down[0] != Abort(id)
    ensures Holds(s, Taken(p).child, id)
  {
  }

  lemma TakenFramed(s: Server, p: Peer)
    requires Framed(s, p) && Booked(s) && p.down != []
    ensures Framed(s, Taken(p))
  {
    var q, first := Taken(p), p.down[0];
    TakenDown(p);
    assert first in p.down;
    forall f | f in q.down && f.Commit? ensures f.id in s.committed && Holds(s, q.child, f.id) {
      var i :| 0 <= i < |q.down| && q.down[i] == f;
      assert p.down[i + 1] == f;
      TakenHolds(s, p, f.id);
    }
    if p.ask.Voted? { TakenHolds(s, p, p.ask.id); }
    if p.ask.Asked? && VoteOk(p.ask.id) in q.up {
      assert VoteOk(p.ask.id) in p.up;
      TakenHolds(s, p, p.ask.id);
    }
  }

  lemma TakenKnown(s: Server, p: Peer)
    requires Framed(s, p) && Known(s, p) && p.down != []
    ensures Known(s, Taken(p))
    ensures p.down[0].Work? ==> p.down[0].version <= p.child.current
    ensures p.down[0].Commit? ==>
              p.down[0].id in s.committed && p.child.op.Some? && Taken(p).child.current == s.plans[p.down[0].id]
  {
    var q, first := Taken(p), p.down[0];
    TakenDown(p);
    assert first in p.down;
    assert q.child.current == if first.Commit? then s.plans[first.id] else p.child.current;
    assert forall u :: u in q.up && u.Hello? ==> u in p.up;
    assert forall i :: 0 < i < |q.up| ==> !q.up[i].Hello?;
  }

  lemma ChildReceiveKeeps(n: System, l: nat)
    requires Inv(n) && Enabled(n, ChildReceive(l))
    ensures Inv(OnChildReceive(n, l))
  {
    var p := n.peers[l];
    assert PeerOk(n.server, l, p);
    TakenFramed(n.server, p);
    TakenKnown(n.server, p);
    assert PeerOk(n.server, l, Taken(p));
    WithKeeps(n, l, Taken(p));
  }

  /** A step of the child's own. */
  function Stepped(p: Peer, kind: ChildKind): Peer {
    var r := OnChildStep(p.child, kind);
    p.(child := r.child, up := if p.open then p.up + r.votes else p.up)
  }

  lemma SteppedOk(s: Server, l: nat, p: Peer, kind: ChildKind)
    requires PeerOk(s, l, p)
    ensures PeerOk(s, l, Stepped(p, kind))
  {
    var q := Stepped(p, kind);
    assert q.child.current == p.child.current && q.child.allowed == p.child.allowed;
    assert forall id :: Holds(s, p.child, id) ==> Holds(s, q.child, id);
    assert forall u :: u in q.up ==> u in p.up || u in OnChildStep(p.child, kind).votes;
    assert forall i :: 0 < i < |q.up| ==> !q.up[i].Hello?;
  }

  lemma ChildStepKeeps(n: System, l: nat, kind: ChildKind)
    requires Inv(n) && Enabled(n, ChildStep(l, kind))
    ensures Inv(Next(n, ChildStep(l, kind)))
  {
    SteppedOk(n.server, l, n.peers[l], kind);
    WithKeeps(n, l, Stepped(n.peers[l], kind));
  }

  // ---------------------------------------------------------------- every run

  lemma NextKeeps(n: System, s: Step)
    requires Inv(n) && Enabled(n, s)
    ensures Inv(Next(n, s))
  {
    hide Inv;
    match s
    case Begin(version) => BeginKeeps(n, version);
    case GiveUp => GiveUpKeeps(n);
    case SendPrepares => SendPreparesKeeps(n);
    case PreparedHere(ok) =>
      FlagKeeps(n, if ok then n.server.run.value.(local := true) else n.server.run.value.(failed := true));
    case Deadline(l) => NoVoteKeeps(n, l);
    case CommitAll => CommitAllKeeps(n);
    case AbortAll => AbortAllKeeps(n);
    case Reconcile(l) => ReconcileKeeps(n, l);
    case ReconcileVoted(l) => ReconcileVotedKeeps(n, l);
    case RetireHere => RetireKeeps(n);
    case SendWork(l, version) => WorkKeeps(n, l, version);
    case Receive(l) => ReceiveKeeps(n, l);
    case Connect(l) => ConnectKeeps(n, l);
    case Lose(l) => LoseLinkKeeps(n, l);
    case ChildReceive(l) => ChildReceiveKeeps(n, l);
    case ChildStep(l, kind) => ChildStepKeeps(n, l, kind);
  }

  /** Steps that cannot be taken are passed over. */
  function RunAll(n: System, steps: seq<Step>): System
    decreases |steps|
  {
    if steps == [] then n else RunAll(if Enabled(n, steps[0]) then Next(n, steps[0]) else n, steps[1..])
  }

  /** A server before its first reload; no child is connected yet, whatever it runs. */
  ghost predicate Started(n: System) {
    && n.server.previous.None? && n.server.run.None? && n.server.plans == map[]
    && n.server.committed == {} && n.server.aborted == {} && n.server.installed == {n.server.current}
    && forall l :: l in n.peers ==>
         && n.peers[l].child.op.None? && n.peers[l].child.allowed < n.server.current
         && n.peers[l] == Closed(n.peers[l])
  }

  lemma {:induction false} RunKeeps(n: System, steps: seq<Step>)
    requires Inv(n)
    ensures Inv(RunAll(n, steps))
    decreases |steps|
  {
    if steps != [] {
      if Enabled(n, steps[0]) { NextKeeps(n, steps[0]); }
      RunKeeps(if Enabled(n, steps[0]) then Next(n, steps[0]) else n, steps[1..]);
    }
  }

  /** The child of a link runs what it ran. */
  predicate SameCurrent(n: System, end: System, l: nat) {
    l in n.peers && l in end.peers ==> end.peers[l].child.current == n.peers[l].child.current
  }

  lemma EndedCurrent(s: Server, peers: map<nat, Peer>, l: nat)
    ensures l in peers ==> Ended(s, peers).peers[l].child.current == peers[l].child.current
  {
  }

  lemma ReceiveCurrent(n: System, x: nat, l: nat)
    ensures x in n.peers ==> SameCurrent(n, LoseLink(n, x), l) && SameCurrent(n, NoVote(n, x), l)
    ensures x in n.peers && n.peers[x].up != [] ==> SameCurrent(n, OnReceive(n, x), l)
  {
  }

  lemma ChildStepCurrent(c: Child, kind: ChildKind)
    ensures OnChildStep(c, kind).child.current == c.current
  {
  }

  /** A child changes the version it runs only by a commit. */
  lemma OnlyCommitInstalls(n: System, s: Step, l: nat)
    requires Enabled(n, s) && l in n.peers && l in Next(n, s).peers
    requires Next(n, s).peers[l].child.current != n.peers[l].child.current
    ensures s == ChildReceive(l) && n.peers[l].down != [] && n.peers[l].down[0].Commit?
  {
    hide Ended, NoVote, OnReceive, LoseLink, OnChildStep;
    match s
    case GiveUp => EndedCurrent(n.server, n.peers, l);
    case CommitAll => EndedCurrent(CommitServer(n), CommitPeers(n), l);
    case AbortAll => EndedCurrent(AbortServer(n), AbortPeers(n), l);
    case Deadline(x) => ReceiveCurrent(n, x, l);
    case Receive(x) => ReceiveCurrent(n, x, l);
    case Lose(x) => ReceiveCurrent(n, x, l);
    case ChildStep(x, kind) => ChildStepCurrent(n.peers[x].child, kind);
    case _ =>
  }

  /**
   Agreement, over every run.  What a child installs is a version the server installed before and did not
   abort, newer than what the child ran; a commit that arrives always finds its operation prepared and no previous
   version left.  Every child in step runs the server's version once the commits on their way have arrived, and while
   a cluster reload asks, exactly those are its participants.  A call of a code version never arrives before it is
   installed, and what a child may retire without a deadline, the server retired before.
   */
  lemma ClusterAgreement(n: System, steps: seq<Step>, l: nat)
    requires Started(n) && l in n.peers
    ensures var end := RunAll(n, steps);
            && l in end.peers
            && var s, p := end.server, end.peers[l];
               && (p.down != [] && p.down[0].Commit? ==>
                     var after := Handle(p.child, p.down[0]).child;
                     && p.down[0].id in s.plans && after.current == s.plans[p.down[0].id]
                     && p.child.previous.None? && after.previous == Some(p.child.current)
                     && p.child.current < after.current <= s.current
                     && after.current in s.installed && p.down[0].id !in s.aborted)
               && (p.synced ==> After(s.plans, p.child.current, p.down) == s.current)
               && (s.run.Some? && s.run.value.id.Some? ==> (p.synced <==> l in s.run.value.participants))
               && (p.down != [] && p.down[0].Work? ==> p.down[0].version <= p.child.current)
               && (p.child.previous.Some? && RetireAllowed(p.child).previous.None? ==> p.child.previous.value < Oldest(s))
  {
    StartedInv(n);
    RunKeeps(n, steps);
    RunPeers(n, steps);
    var end := RunAll(n, steps);
    var p := end.peers[l];
    assert PeerOk(end.server, l, p);
    if p.down != [] {
      TakenKnown(end.server, p);
      assert p.down[0] in p.down;
    }
  }

  lemma StartedInv(n: System)
    requires Started(n)
    ensures Inv(n)
  {
  }

  lemma {:induction false} RunPeers(n: System, steps: seq<Step>)
    ensures RunAll(n, steps).peers.Keys == n.peers.Keys
    decreases |steps|
  {
    if steps != [] {
      if Enabled(n, steps[0]) { NextPeers(n, steps[0]); }
      RunPeers(if Enabled(n, steps[0]) then Next(n, steps[0]) else n, steps[1..]);
    }
  }

  lemma NextPeers(n: System, s: Step)
    requires Enabled(n, s)
    ensures Next(n, s).peers.Keys == n.peers.Keys
  {
  }
}
