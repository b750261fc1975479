/** A host's records of roots, leases and gates as they change in place, proved against `Leases`. */
module RootRecords {
  import opened Wrappers
  import opened Leases

  lemma {:induction false} OneRootMore(h: Host, order: seq<nat>, link: nat, r: nat)
    ensures AllForeignEnded(h, order + [r], link) == ForeignEnded(AllForeignEnded(h, order, link), r, link)
    decreases |order|
  {
    if order == [] {
      assert ([] + [r])[1..] == [];
      assert AllForeignEnded(ForeignEnded(h, r, link), [], link) == ForeignEnded(h, r, link);
    } else {
      assert (order + [r])[0] == order[0] && (order + [r])[1..] == order[1..] + [r];
      OneRootMore(ForeignEnded(h, order[0], link), order[1..], link, r);
    }
  }

  lemma OneObjectMore(objects: map<nat, Object>, r: nat, done: set<nat>, o: nat)
    requires o in objects && o !in done
    ensures var before := ObjectsWithout(objects, r, done);
            ObjectsWithout(objects, r, done + {o}) == before[o := RootEnded(before[o], r)]
  {
  }

  lemma NoObject(objects: map<nat, Object>, r: nat)
    ensures ObjectsWithout(objects, r, {}) == objects
  {
  }

  lemma OneGateMore(objects: map<nat, Object>, done: set<nat>, o: nat)
    requires o in objects && o !in done
    ensures var before := Gated(objects, done);
            Gated(objects, done + {o}) == before[o := before[o].(gate := Some(before[o].leases.Keys))]
  {
  }

  lemma NoGate(objects: map<nat, Object>)
    ensures Gated(objects, {}) == objects
  {
  }

  /** A call writes the lease down, unless it is there, and runs. */
  lemma CallIs(h: Host, r: nat, o: nat)
    requires Enabled(h, Leases.Call(r, o)) && r in h.codeOf && o in h.objects
    ensures var runs := h.(invocations := h.invocations + multiset{Invocation(r, o)});
            Next(h, Leases.Call(r, o))
            == if r in h.objects[o].leases then runs
               else runs.(objects := h.objects[o := h.objects[o].(leases := h.objects[o].leases[r := h.codeOf[r]])],
                          touches := h.touches[r := Of(h.touches, r) + {o}])
  {
    hide CanAct, Admitted;
  }

  class RootBooks {
    var versions: set<nat>
    var joined: map<nat, nat>
    var codeOf: map<nat, nat>
    var local: set<nat>
    var foreign: map<nat, set<nat>>
    var touches: map<nat, set<nat>>
    var out: map<nat, set<nat>>
    var links: set<nat>
    var objects: map<nat, Object>
    ghost var invocations: multiset<Invocation>
    ghost var told: set<Notice>

    ghost function View(): Host
      reads this
    {
      Host(versions, joined, codeOf, local, foreign, touches, out, links, objects, invocations, told)
    }

    constructor (versions: set<nat>)
      ensures View() == Idle(versions) && Inv(View()) && Faithful(View())
    {
      this.versions, joined, codeOf, local, foreign, touches, out := versions, map[], map[], {}, map[], map[], map[];
      links, objects, invocations, told := {}, map[], multiset{}, {};
    }

    /** Admission of a call or a write. */
    method Admit(r: nat, o: nat) returns (ok: bool)
      requires r in codeOf && o in objects
      ensures ok == Admitted(View(), r, o)
    {
      if codeOf[r] !in versions { return false; }
      if codeOf[r] < objects[o].minVersion { return false; }
      match objects[o].gate {
        case Some(grandfathered) => ok := r in grandfathered;
        case None => ok := true;
      }
    }

    /** A call is admitted and leased in one step, or refused. */
    method Call(r: nat, o: nat) returns (ok: bool)
      requires Inv(View()) && CanAct(View(), r) && o in objects
      modifies this`objects, this`touches, this`invocations
      ensures Inv(View()) && ok == Admitted(old(View()), r, o)
      ensures View() == if ok then Next(old(View()), Leases.Call(r, o)) else old(View())
    {
      ok := Admit(r, o);
      if !ok { return; }
      NextKeeps(View(), Leases.Call(r, o));
      CallIs(View(), r, o);
      hide Inv, Next, CanAct;
      if r !in objects[o].leases {
        objects := objects[o := objects[o].(leases := objects[o].leases[r := codeOf[r]])];
        touches := touches[r := (if r in touches then touches[r] else {}) + {o}];
      }
      invocations := invocations + multiset{Invocation(r, o)};
    }

    /** In place, `Leases.EndRoot`: its own records go, and the loops below take care of leases and notices. */
    method EndRoot(r: nat)
      requires Inv(View())
      modifies this`local, this`foreign, this`touches, this`out, this`objects, this`told
      ensures View() == Leases.EndRoot(old(View()), r)
    {
      assert Of(touches, r) <= objects.Keys;
      var touched, went := if r in touches then touches[r] else {}, if r in out then out[r] else {};
      assert touched == Of(touches, r) && went == Of(out, r);
      hide Inv, ObjectsWithout, Notices, Of;
      local := local - {r};
      foreign := foreign - {r};
      EndLeases(r, touched);
      touches := touches - {r};
      Tell(r, went);
      out := out - {r};
    }

    method EndLeases(r: nat, touched: set<nat>)
      requires touched <= objects.Keys
      modifies this`objects
      ensures objects == ObjectsWithout(old(objects), r, touched)
    {
      var left := touched;
      NoObject(objects, r);
      assert touched - left == {};
      while left != {}
        invariant left <= touched && objects == ObjectsWithout(old(objects), r, touched - left)
        decreases |left|
      {
        var o :| o in left;
        assert touched - (left - {o}) == (touched - left) + {o};
        OneObjectMore(old(objects), r, touched - left, o);
        objects := objects[o := RootEnded(objects[o], r)];
        left := left - {o};
      }
      assert touched - left == touched;
    }

    method Tell(r: nat, out: set<nat>)
      modifies this`told
      ensures told == old(told) + Notices(out, links, r)
    {
      var left := out;
      while left != {}
        invariant left <= out
        invariant told == old(told) + Notices(out - left, links, r)
        decreases |left|
      {
        var link :| link in left;
        if link in links { told := told + {Notice(link, r)}; }
        left := left - {link};
      }
    }

    /** The first part of a root's call here: it runs until `Settle`. */
    method Arrive(r: nat, version: nat, link: nat) returns (ok: bool)
      requires Inv(View()) && Enabled(View(), Leases.Arrive(r, version, link))
      modifies this`local, this`foreign, this`joined, this`codeOf
      ensures Inv(View()) && View() == Next(old(View()), Leases.Arrive(r, version, link)) && ok == (version in versions)
    {
      NextKeeps(View(), Leases.Arrive(r, version, link));
      hide Inv, Enabled, Joined;
      if version !in versions {
        local := local - {r};
        return false;
      }
      if r !in local { NoteLink(r, link); }
      Join(r, version);
      ok := true;
    }

    method Join(r: nat, version: nat)
      modifies this`joined, this`codeOf
      ensures View() == Joined(old(View()), r, version)
    {
      joined := joined[r := (if r in joined then joined[r] else 0) + 1];
      codeOf := codeOf[r := version];
    }

    method NoteLink(r: nat, link: nat)
      modifies this`foreign
      ensures View() == old(View()).(foreign := old(foreign)[r := Of(old(foreign), r) + {link}])
    {
      if r !in foreign { foreign := foreign[r := {}]; }
      foreign := foreign[r := foreign[r] + {link}];
    }

    /** One call less; without any, and unless a link holds it, the root is over. */
    method Settle(r: nat)
      requires Inv(View()) && r in joined
      modifies this
      ensures Inv(View()) && View() == Next(old(View()), Leases.Settle(r))
    {
      NextKeeps(View(), Leases.Settle(r));
      var count := joined[r] - 1;
      if count > 0 {
        joined := joined[r := count];
      } else {
        joined := joined - {r};
        if r !in foreign { EndRoot(r); }
      }
    }

    /** The other end of `link` says that the root is over: only who brought it may, and all of them must. */
    method ForeignRootEnded(r: nat, link: nat)
      requires Inv(View())
      modifies this
      ensures Inv(View()) && View() == ForeignEnded(old(View()), r, link)
    {
      ForeignEndedKeeps(View(), r, link);
      if r !in foreign || link !in foreign[r] { return; }
      if foreign[r] != {link} {
        foreign := foreign[r := foreign[r] - {link}];
      } else if r in joined {
        foreign := foreign - {r};
      } else {
        EndRoot(r);
      }
    }

    /** A closed link counts as the end of every root it brought. */
    method ConnectionClosed(link: nat) returns (ghost order: seq<nat>)
      requires Inv(View()) && link in links
      modifies this
      ensures Enabled(old(View()), LinkClosed(link, order)) && Inv(View()) && View() == Next(old(View()), LinkClosed(link, order))
    {
      var left := foreign.Keys;
      ghost var roots := left;
      order := [];
      hide Inv, ForeignEnded;
      while left != {}
        invariant left <= roots && Inv(View()) && View() == AllForeignEnded(old(View()), order, link)
        invariant forall r :: r in order <==> r in roots - left
        decreases |left|
      {
        var r :| r in left;
        OneRootMore(old(View()), order, link, r);
        ForeignRootEnded(r, link);
        left := left - {r};
        order := order + [r];
      }
      links := links - {link};
      out := map r | r in out :: out[r] - {link};
      NextKeeps(old(View()), LinkClosed(link, order));
    }

    /** The admission cut: the roots that hold a lease now are grandfathered. */
    method Gate(targets: set<nat>)
      requires Inv(View()) && Enabled(View(), Leases.Gate(targets))
      modifies this`objects
      ensures Inv(View()) && View() == Next(old(View()), Leases.Gate(targets))
    {
      NextKeeps(View(), Leases.Gate(targets));
      hide Inv, Gated;
      GateAll(targets);
    }

    method GateAll(targets: set<nat>)
      requires targets <= objects.Keys
      modifies this`objects
      ensures objects == Gated(old(objects), targets)
    {
      var left := targets;
      assert targets - left == {};
      NoGate(objects);
      while left != {}
        invariant left <= targets && objects == Gated(old(objects), targets - left)
        decreases |left|
      {
        var o :| o in left;
        assert targets - (left - {o}) == (targets - left) + {o};
        OneGateMore(old(objects), targets - left, o);
        objects := objects[o := objects[o].(gate := Some(objects[o].leases.Keys))];
        left := left - {o};
      }
      assert targets - left == targets;
    }
  }
}
