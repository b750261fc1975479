/** The coordinator and a child as objects whose fields change in place, proved against the functions of `Cluster`. */
module ClusterObjects {
  import opened Wrappers
  import opened Cluster

  class ChildReloads {
    var current: nat
    var previous: Option<nat>
    var retireAllowed: nat
    /** The one prepare this child works on. */
    var operation: Option<Operation>

    function View(): Child
      reads this
    {
      Child(current, previous, retireAllowed, operation)
    }

    constructor (current: nat)
      ensures View() == Child(current, None, 0, None)
    {
      this.current, previous, retireAllowed, operation := current, None, 0, None;
    }

    method OnFrame(f: Down) returns (votes: seq<Up>)
      modifies this
      ensures Reaction(View(), votes) == Handle(old(View()), f)
    {
      votes := [];
      match f {
        case Prepare(id, version) =>
          if operation.Some? { return [VoteError(id)]; }
          operation := Some(Operation(id, version, Loading, false));
        case Commit(id) =>
          if operation.None? || operation.value.id != id || !operation.value.phase.Prepared? { return; }
          var op := operation.value;
          operation := None;
          previous := Some(current);
          current := op.version;
        case Abort(id) =>
          if operation.None? || operation.value.id != id { return; }
          CancelOperation();
        case Work(_) =>
        case Retire(version) =>
          if version > retireAllowed { retireAllowed := version; }
      }
    }

    /** An operation still in progress only gets a mark, for `Settle` to find; a prepared one goes at once. */
    method CancelOperation()
      modifies this
      ensures View() == Cancel(old(View()))
    {
      if operation.None? { return; }
      if operation.value.phase.Prepared? {
        operation := None;
      } else {
        operation := Some(operation.value.(cancelled := true));
      }
    }

    /** Without the link upward no decision can come: whatever is under way is given up. */
    method ParentLost()
      modifies this
      ensures View() == Cancel(old(View()))
    {
      CancelOperation();
    }

    /** The modules are loaded, and then everything up to the commit is done, or one of these failed. */
    method Settle(kind: ChildKind) returns (votes: seq<Up>)
      modifies this
      ensures Reaction(View(), votes) == OnChildStep(old(View()), kind)
    {
      votes := [];
      match kind {
        case Load =>
          if operation.Some? && operation.value.phase.Loading? && !operation.value.cancelled {
            operation := Some(operation.value.(phase := Preparing));
          }
        case Done =>
          if operation.None? || !operation.value.phase.Preparing? || operation.value.cancelled { return; }
          if previous.Some? || operation.value.version <= current { return; }
          operation := Some(operation.value.(phase := Prepared));
          votes := [VoteOk(operation.value.id)];
        case Fail =>
          if operation.None? || operation.value.phase.Prepared? { return; }
          if !operation.value.cancelled { votes := [VoteError(operation.value.id)]; }
          operation := None;
        case RetireOld =>
          if previous.Some? && previous.value <= retireAllowed { previous := None; }
        case RetireNow =>
          previous := None;
      }
    }
  }

  class ServerReloads {
    var server: Server
    var connections: map<nat, Peer>

    function View(): System
      reads this
    {
      System(server, connections)
    }

    constructor (server: Server, connections: map<nat, Peer>)
      ensures View() == System(server, connections)
    {
      this.server, this.connections := server, connections;
    }

    method Push(l: nat, f: Down)
      requires l in connections
      modifies this`connections
      ensures connections == old(connections)[l := Sent(old(connections)[l], f)]
    {
      connections := connections[l := connections[l].(down := connections[l].down + [f])];
    }

    /** Every child in step is asked, under one id. */
    method SendPrepares()
      requires server.run.Some?
      modifies this
      ensures View() == OnSendPrepares(old(View()))
    {
      var id, version := server.nextId, server.run.value.version;
      var participants := Synced(connections);
      var left := participants;
      while left != {}
        invariant left <= participants && connections.Keys == old(connections).Keys && server == old(server)
        invariant forall l :: l in connections ==>
                    connections[l] == if l in participants && l !in left
                                      then Sent(old(connections)[l], Prepare(id, version)).(ask := Asked(id))
                                      else old(connections)[l]
        decreases |left|
      {
        var l :| l in left;
        Push(l, Prepare(id, version));
        connections := connections[l := connections[l].(ask := Asked(id))];
        left := left - {l};
      }
      server := server.(run := Some(server.run.value.(id := Some(id), participants := participants)),
                        plans := server.plans[id := version], nextId := id + 1);
    }

    /** The version is installed here first; then the commits go out; then whoever waited is decided. */
    method Commit()
      requires server.run.Some? && server.run.value.id.Some?
      modifies this
      ensures View() == OnCommitAll(old(View()))
    {
      hide PeerHello;
      var r := server.run.value;
      server := server.(current := r.version, previous := Some(server.current),
                        committed := server.committed + {r.id.value}, installed := server.installed + {r.version});
      Tell(r.participants, Down.Commit(r.id.value), Some(r.version));
      assert connections == CommitPeers(old(View()));
      ReloadEnded();
    }

    method Abort()
      requires server.run.Some? && server.run.value.id.Some?
      modifies this
      ensures View() == OnAbortAll(old(View()))
    {
      hide PeerHello;
      var r := server.run.value;
      server := server.(aborted := server.aborted + {r.id.value});
      Tell(r.participants, Down.Abort(r.id.value), None);
      assert connections == AbortPeers(old(View()));
      ReloadEnded();
    }

    /** Sends the outcome to every participant. */
    method Tell(participants: set<nat>, f: Down, version: Option<nat>)
      modifies this`connections
      ensures connections == map l | l in old(connections) ::
                if l in participants then Told(old(connections)[l], f, version) else old(connections)[l]
    {
      var left := participants * connections.Keys;
      while left != {}
        invariant left <= participants * connections.Keys && connections.Keys == old(connections).Keys
        invariant forall l :: l in connections ==>
                    connections[l] == if l in participants && l !in left then Told(old(connections)[l], f, version)
                                      else old(connections)[l]
        decreases |left|
      {
        var l :| l in left;
        TellOne(l, f, version);
        left := left - {l};
      }
    }

    method TellOne(l: nat, f: Down, version: Option<nat>)
      requires l in connections
      modifies this`connections
      ensures connections == old(connections)[l := Told(old(connections)[l], f, version)]
    {
      Push(l, f);
      connections := connections[l := connections[l].(ask := NoAsk)];
      if version.Some? { connections := connections[l := connections[l].(version := version)]; }
    }

    /** The slot is free again: each child in `waiting` is decided once, in any order. */
    method ReloadEnded()
      modifies this
      ensures View() == Ended(old(server), old(connections))
    {
      server := server.(run := None);
      var left := connections.Keys;
      while left != {}
        invariant left <= connections.Keys && connections.Keys == old(connections).Keys && server == old(server).(run := None)
        invariant forall l :: l in connections ==>
                    connections[l] == if l !in left then Decided(server, old(connections)[l]) else old(connections)[l]
        decreases |left|
      {
        var l :| l in left;
        var p := connections[l];
        if p.open && p.waiting && p.version.Some? { connections := connections[l := PeerHello(server, p, p.version.value)]; }
        left := left - {l};
      }
    }
  }

  /** A participant told the outcome: nothing is asked of it any more, and a commit says what it will run. */
  function Told(p: Peer, f: Down, version: Option<nat>): Peer {
    Sent(p, f).(ask := NoAsk, version := if version.Some? then version else p.version)
  }

  function Decided(s: Server, p: Peer): Peer {
    if p.open && p.waiting && p.version.Some? then PeerHello(s, p, p.version.value) else p
  }
}
