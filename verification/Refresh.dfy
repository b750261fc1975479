/**
 The refreshes of a provider made of parts, over its catalogue: each restores what it reads from the store, and with
 the network fetches, stores and publishes.  The read is not chained with the publications of older refreshes.
 */
module Refreshes {
  import opened Wrappers
  import opened Catalogues

  /** `again`: the second phase, which may use the network. */
  datatype Stage = Reading(again: bool) | Restoring(again: bool, i: nat) | Between | Fetching | Saving(i: nat) | Ended(saved: bool)

  /** The refreshes by generation. */
  datatype Provider = Provider(c: Catalogue, stages: map<nat, Stage>)

  datatype Move =
    | Open
    | Read(g: nat)
    | Restored(g: nat)
    | Further(g: nat)
    | Fetched(g: nat, models: Models)
    | Saved(g: nat)
    | Leave(g: nat)
    | Other(step: Step)

  predicate Possible(s: Provider, m: Move) {
    match m
    case Open => true
    case Read(g) => g in s.stages && s.stages[g].Reading? && g <= s.c.generation
    case Restored(g) => g in s.stages && s.stages[g].Restoring? && Over(s.c, s.stages[g].i)
    case Further(g) => g in s.stages && s.stages[g].Between? && g !in s.c.aborted
    case Fetched(g, _) => g in s.stages && s.stages[g].Fetching? && g !in s.c.aborted && g <= s.c.generation
    case Saved(g) => g in s.stages && s.stages[g].Saving? && Over(s.c, s.stages[g].i)
    case Leave(g) =>
      g in s.stages && !s.stages[g].Ended?
      && (g in s.c.aborted || s.stages[g].Reading? || s.stages[g].Between? || s.stages[g].Fetching?)
    case Other(step) => !step.Begin? && !step.Publish? && Enabled(s.c, step)
  }

  /** What it does to the catalogue. */
  function StepOf(s: Provider, m: Move): Option<Step>
    requires Possible(s, m)
  {
    match m
    case Open => Some(Begin)
    case Read(g) => if s.c.store.Some? then Some(Publish(g, Keep, s.c.store)) else None
    case Fetched(g, models) => Some(Publish(g, Store(models), Some(models)))
    case Other(step) => Some(step)
    case _ => None
  }

  /** The stage after restoring, or after finding nothing to restore. */
  function Onward(s: Provider, g: nat, again: bool): Stage {
    if !again then Between else if g in s.c.aborted then Ended(false) else Fetching
  }

  function StageAfter(s: Provider, m: Move): Stage
    requires Possible(s, m) && !m.Other?
  {
    match m
    case Open => Reading(false)
    case Read(g) => if s.c.store.Some? then Restoring(s.stages[g].again, |s.c.publications|) else Onward(s, g, s.stages[g].again)
    case Restored(g) =>
      if s.c.publications[s.stages[g].i].phase == Finished(true) then Onward(s, g, s.stages[g].again) else Ended(false)
    case Further(g) => Reading(true)
    case Fetched(_, _) => Saving(|s.c.publications|)
    case Saved(g) => Ended(s.c.publications[s.stages[g].i].phase == Finished(true))
    case Leave(_) => Ended(false)
  }

  function Whose(s: Provider, m: Move): nat
    requires !m.Other?
  {
    if m.Open? then s.c.generation + 1 else m.g
  }

  function After(s: Provider, m: Move): Provider
    requires Possible(s, m)
  {
    Provider(if StepOf(s, m).Some? then Next(s.c, StepOf(s, m).value) else s.c,
             if m.Other? then s.stages else s.stages[Whose(s, m) := StageAfter(s, m)])
  }

  // ---------------------------------------------------------------- memory and store

  function Held(store: Option<Models>): Models {
    if store.Some? then store.value else []
  }

  predicate Agree(c: Catalogue) {
    c.models == Held(c.store)
  }

  /** Current and not aborted. */
  predicate Live(s: Provider, g: nat) {
    g in s.stages && g == s.c.generation && g !in s.c.aborted
  }

  /** An older refresh is writing something else to the store. */
  predicate Threat(c: Catalogue) {
    exists i :: 0 <= i < |c.publications| && Threatens(c, i)
  }

  predicate Threatens(c: Catalogue, i: nat)
    requires i < |c.publications|
  {
    && c.publications[i].phase.Storing? && c.publications[i].generation != c.generation
    && Held(StoreAfter(c.store, c.publications[i].persist)) != Held(c.store)
  }

  /** Publications restore or store, and nothing was ever erased. */
  predicate Kinds(c: Catalogue) {
    && (forall i :: 0 <= i < |c.publications| ==> KindOf(c.publications[i]))
    && (c.store.None? ==> c.models == [] && forall i :: 0 <= i < |c.publications| ==> c.publications[i].persist.Store?)
  }

  predicate KindOf(p: Publication) {
    || (p.persist.Keep? && p.update.Some? && !p.phase.Failed? && !p.phase.Storing?)
    || (p.persist.Store? && p.update == Some(p.persist.models))
  }

  /** What a refresh is at is all it has in the chain, and none of it was refused. */
  predicate Own(s: Provider, g: nat)
    requires g in s.stages
  {
    && (forall i :: 0 <= i < |s.c.publications| && s.c.publications[i].generation == g ==>
          && s.c.publications[i].phase != Finished(false)
          && (Over(s.c, i) || s.stages[g] == Restoring(true, i) || s.stages[g] == Restoring(false, i) || s.stages[g] == Saving(i)))
    && (s.stages[g].Restoring? || s.stages[g].Saving? ==>
          && s.stages[g].i < |s.c.publications| && s.c.publications[s.stages[g].i].generation == g
          && (s.c.publications[s.stages[g].i].persist.Keep? <==> s.stages[g].Restoring?))
  }

  predicate SavedIsClean(s: Provider, g: nat)
    requires g in s.stages && Own(s, g)
  {
    s.stages[g] == Ended(true) || (s.stages[g].Saving? && s.c.publications[s.stages[g].i].phase == Finished(true)) ==>
      Agree(s.c) && !Threat(s.c)
  }

  ghost predicate Sound(s: Provider) {
    && Inv(s.c) && Storers(s.c) && Kinds(s.c)
    && (forall g :: g in s.stages ==> g <= s.c.generation)
    && (forall g :: Live(s, g) ==> Own(s, g) && SavedIsClean(s, g))
  }

  /** Nothing is on its way that would part memory and store, and they agree or will when what was read is restored. */
  predicate Clean(s: Provider, g: nat)
    requires g in s.stages
  {
    && !Threat(s.c)
    && if s.stages[g].Restoring? && s.stages[g].i < |s.c.publications| && !Over(s.c, s.stages[g].i)
       then s.c.publications[s.stages[g].i].update == s.c.store && s.c.store.Some?
       else Agree(s.c)
  }

  // ---------------------------------------------------------------- the catalogue's steps

  lemma KindsKept(c: Catalogue, step: Step)
    requires Kinds(c) && Enabled(c, step)
    requires step.Publish? ==> KindOf(Publication(0, step.persist, step.update, None, Queued)) && (step.persist.Keep? ==> c.store.Some?)
    ensures Kinds(Next(c, step))
  {
    var q := Next(c, step);
    forall i | 0 <= i < |q.publications|
      ensures KindOf(q.publications[i]) && (q.store.None? ==> q.publications[i].persist.Store?)
    {
      if i < |c.publications| { assert KindOf(c.publications[i]); }
    }
  }

  predicate SameGeneration(step: Step) {
    !step.Begin? && !step.Supersede?
  }

  /** No new threat: only the current refresh can start to store. */
  lemma ThreatKept(c: Catalogue, step: Step)
    requires Chained(c) && Kinds(c) && Enabled(c, step) && SameGeneration(step) && !Threat(c)
    ensures !Threat(Next(c, step))
  {
    var q := Next(c, step);
    forall i | 0 <= i < |q.publications| ensures !Threatens(q, i) {
      if i < |c.publications| {
        assert !Threatens(c, i);
        if step.StoreDone? && i != step.i && c.publications[i].phase.Storing? { OneStoring(c, i, step.i); }
      }
    }
  }

  /** A step of an older refresh's publication that is no threat leaves memory and what is held as they are. */
  lemma OlderHarmless(c: Catalogue, step: Step)
    requires Kinds(c) && Enabled(c, step) && !Threat(c)
    requires (step.Turn? || step.StoreDone? || step.StoreFails?) && c.publications[step.i].generation != c.generation
    ensures var q := Next(c, step); q.models == c.models && Held(q.store) == Held(c.store) && (c.store.Some? ==> q.store == c.store)
  {
    assert KindOf(c.publications[step.i]) && !Threatens(c, step.i);
  }

  lemma AgreeKept(c: Catalogue, step: Step)
    requires Kinds(c) && Enabled(c, step) && SameGeneration(step) && !Threat(c) && Agree(c)
    requires step.Turn? && c.publications[step.i].generation == c.generation ==> c.publications[step.i].persist.Store?
    requires step.StoreDone? && c.publications[step.i].generation == c.generation ==> !Stale(c, c.publications[step.i])
    ensures Agree(Next(c, step))
  {
    if step.Turn? || step.StoreDone? || step.StoreFails? {
      assert KindOf(c.publications[step.i]);
      if c.publications[step.i].generation != c.generation { OlderHarmless(c, step); }
    }
  }

  /** The current refresh stored what it publishes. */
  lemma OwnStored(c: Catalogue, i: nat)
    requires Chained(c) && Kinds(c) && Enabled(c, StoreDone(i)) && !Stale(c, c.publications[i]) && c.publications[i].persist.Store?
    ensures Agree(Next(c, StoreDone(i))) && !Threat(Next(c, StoreDone(i)))
  {
    var q := Next(c, StoreDone(i));
    assert KindOf(c.publications[i]);
    forall j | 0 <= j < |q.publications| ensures !q.publications[j].phase.Storing? {
      if j != i && c.publications[j].phase.Storing? { OneStoring(c, i, j); }
    }
  }

  // ---------------------------------------------------------------- what every run keeps

  lemma OwnKept(s: Provider, m: Move, g: nat)
    requires Sound(s) && Possible(s, m) && Live(s, g) && Live(After(s, m), g)
    ensures Own(After(s, m), g)
  {
    assert Own(s, g);
    hide Inv, Storers, Kinds, SavedIsClean, Threat, Agree;
    if m.Other? { OwnStepped(s, m.step, g); } else { OwnMoved(s, m, g); }
  }

  lemma OwnStepped(s: Provider, step: Step, g: nat)
    requires Live(s, g) && Own(s, g) && Possible(s, Other(step)) && Live(After(s, Other(step)), g)
    ensures Own(After(s, Other(step)), g)
  {
    var t := After(s, Other(step));
    forall i | 0 <= i < |t.c.publications| && t.c.publications[i].generation == g
      ensures t.c.publications[i].phase != Finished(false) && (Over(s.c, i) ==> Over(t.c, i))
    {
      assert s.c.publications[i].generation == g;
    }
  }

  lemma OwnMoved(s: Provider, m: Move, g: nat)
    requires Live(s, g) && Own(s, g) && Possible(s, m) && !m.Other? && Live(After(s, m), g)
    ensures Own(After(s, m), g)
  {
    var t := After(s, m);
    assert s.c.publications <= t.c.publications;
    forall i | 0 <= i < |s.c.publications| ensures Over(t.c, i) == Over(s.c, i) && t.c.publications[i] == s.c.publications[i] {}
  }

  predicate Waiting(s: Provider, g: nat)
    requires g in s.stages
  {
    s.stages[g].Restoring? && s.stages[g].i < |s.c.publications| && !Over(s.c, s.stages[g].i)
  }

  lemma CleanKept(s: Provider, m: Move, g: nat)
    requires Sound(s) && Possible(s, m) && Live(s, g) && Live(After(s, m), g) && Clean(s, g)
    ensures Clean(After(s, m), g)
  {
    if StepOf(s, m).Some? { ThreatKept(s.c, StepOf(s, m).value); }
    hide Inv, Storers, Threat, SavedIsClean;
    if m.Other? { CleanStepped(s, m.step, g); }
  }

  lemma CleanStepped(s: Provider, step: Step, g: nat)
    requires Sound(s) && Possible(s, Other(step)) && Live(s, g) && Live(After(s, Other(step)), g) && Clean(s, g)
    requires !Threat(Next(s.c, step))
    ensures Clean(After(s, Other(step)), g)
  {
    var q := Next(s.c, step);
    assert Own(s, g);
    hide Inv, Storers, Threat, SavedIsClean;
    if Waiting(s, g) {
      var r := s.stages[g].i;
      assert KindOf(s.c.publications[r]);
      if (step.Turn? || step.StoreDone? || step.StoreFails?) && step.i != r {
        assert s.c.publications[step.i].generation != g by { assert !Over(s.c, step.i); }
        OlderHarmless(s.c, step);
      }
    } else {
      AgreeKept(s.c, step);
    }
  }

  /** Once it saved, memory and store agree, whatever it read before. */
  lemma SavedKept(s: Provider, m: Move, g: nat)
    requires Sound(s) && Possible(s, m) && Live(s, g) && Live(After(s, m), g) && Own(After(s, m), g)
    ensures SavedIsClean(After(s, m), g)
  {
    var t := After(s, m);
    assert Own(s, g) && SavedIsClean(s, g);
    if m.Other? {
      SavedStepped(s, m.step, g);
    } else if StepOf(s, m).Some? {
      if !Threat(s.c) { ThreatKept(s.c, StepOf(s, m).value); }
    }
  }

  lemma SavedStepped(s: Provider, step: Step, g: nat)
    requires Sound(s) && Possible(s, Other(step)) && Live(s, g) && Live(After(s, Other(step)), g) && Own(After(s, Other(step)), g)
    requires Own(s, g) && SavedIsClean(s, g)
    ensures SavedIsClean(After(s, Other(step)), g)
  {
    var t := After(s, Other(step));
    if s.stages[g].Saving? && !Over(s.c, s.stages[g].i) && Over(t.c, s.stages[g].i) && step.StoreDone? {
      OwnStored(s.c, step.i);
    } else if !Threat(s.c) && Agree(s.c) && !s.stages[g].Restoring? {
      ThreatKept(s.c, step);
      StoredAgree(s, step, g);
    }
  }

  lemma StoredAgree(s: Provider, step: Step, g: nat)
    requires Sound(s) && Possible(s, Other(step)) && Live(s, g) && Live(After(s, Other(step)), g) && Own(s, g)
    requires !Threat(s.c) && Agree(s.c) && !s.stages[g].Restoring?
    ensures Agree(Next(s.c, step))
  {
    hide Inv, Threat, SavedIsClean;
    if step.Turn? && s.c.publications[step.i].generation == g { assert !Over(s.c, step.i) && KindOf(s.c.publications[step.i]); }
    AgreeKept(s.c, step);
  }

  /** Who is live after a move was so before, or has just begun. */
  lemma LiveBefore(s: Provider, m: Move, g: nat)
    requires Possible(s, m) && Live(After(s, m), g) && forall x :: x in s.stages ==> x <= s.c.generation
    ensures Live(s, g) || (m.Open? && g == s.c.generation + 1)
  {
  }

  lemma OpenedOwn(s: Provider)
    requires Sound(s)
    ensures var t := After(s, Open); Own(t, s.c.generation + 1) && SavedIsClean(t, s.c.generation + 1)
  {
    assert forall i :: 0 <= i < |s.c.publications| ==> s.c.publications[i].generation <= s.c.generation;
  }

  lemma MoveKinds(s: Provider, m: Move)
    requires Sound(s) && Possible(s, m)
    ensures Inv(After(s, m).c) && Storers(After(s, m).c) && Kinds(After(s, m).c)
    ensures forall g :: g in After(s, m).stages ==> g <= After(s, m).c.generation
  {
    if StepOf(s, m).Some? {
      NextKeeps(s.c, StepOf(s, m).value);
      KindsKept(s.c, StepOf(s, m).value);
    }
    hide Inv, Storers, Kinds;
  }

  /** Every move of any refresh, and of the catalogue, keeps it. */
  lemma MoveKeeps(s: Provider, m: Move)
    requires Sound(s) && Possible(s, m)
    ensures Sound(After(s, m))
  {
    MoveKinds(s, m);
    hide Inv, Storers, Kinds, After, Possible;
    forall g | Live(After(s, m), g) ensures Own(After(s, m), g) && SavedIsClean(After(s, m), g) {
      LiveBefore(s, m, g);
      hide Live, Own, SavedIsClean;
      if Live(s, g) {
        OwnKept(s, m, g);
        SavedKept(s, m, g);
      } else {
        OpenedOwn(s);
      }
    }
  }

  // ---------------------------------------------------------------- runs

  predicate IsRun(s: Provider, moves: seq<Move>)
    decreases |moves|
  {
    moves == [] || (Possible(s, moves[0]) && IsRun(After(s, moves[0]), moves[1..]))
  }

  function End(s: Provider, moves: seq<Move>): Provider
    requires IsRun(s, moves)
    decreases |moves|
  {
    if moves == [] then s else End(After(s, moves[0]), moves[1..])
  }

  lemma {:induction false} RunKeepsSound(s: Provider, moves: seq<Move>)
    requires Sound(s) && IsRun(s, moves)
    ensures Sound(End(s, moves))
    decreases |moves|
  {
    if moves != [] {
      MoveKeeps(s, moves[0]);
      hide Sound, After, Possible;
      RunKeepsSound(After(s, moves[0]), moves[1..]);
    }
  }

  lemma StartSound()
    ensures Sound(Provider(Start(), map[]))
  {
    StartKeeps();
    hide Inv, Storers;
  }

  /**
   In every run: whenever the current refresh, unaborted, has saved what it fetched, memory is what the store holds,
   whatever older refreshes still do.
   */
  lemma SavedAgrees(moves: seq<Move>, g: nat)
    requires IsRun(Provider(Start(), map[]), moves)
    requires var s := End(Provider(Start(), map[]), moves); Live(s, g) && s.stages[g] == Ended(true)
    ensures Agree(End(Provider(Start(), map[]), moves).c)
  {
    StartSound();
    hide Start;
    RunKeepsSound(Provider(Start(), map[]), moves);
    var s := End(Provider(Start(), map[]), moves);
    assert Own(s, g) && SavedIsClean(s, g);
    hide Agree, Threat;
  }

  /** A live refresh was live in every state since it began. */
  lemma {:induction false} LiveThrough(s: Provider, moves: seq<Move>, g: nat)
    requires Sound(s) && g in s.stages && IsRun(s, moves) && Live(End(s, moves), g)
    ensures Live(s, g)
    decreases |moves|
  {
    if moves != [] {
      MoveKeeps(s, moves[0]);
      assert g in After(s, moves[0]).stages;
      LiveThrough(After(s, moves[0]), moves[1..], g);
      LiveBefore(s, moves[0], g);
    }
  }

  lemma {:induction false} CleanThrough(s: Provider, moves: seq<Move>, g: nat)
    requires Sound(s) && Live(s, g) && Clean(s, g) && IsRun(s, moves) && Live(End(s, moves), g)
    ensures Clean(End(s, moves), g)
    decreases |moves|
  {
    if moves != [] {
      MoveKeeps(s, moves[0]);
      assert g in After(s, moves[0]).stages;
      LiveThrough(After(s, moves[0]), moves[1..], g);
      CleanKept(s, moves[0], g);
      hide Clean, Sound, Live, After;
      CleanThrough(After(s, moves[0]), moves[1..], g);
    }
  }

  /** Reading while no older refresh is writing something else. */
  lemma ReadClean(s: Provider, g: nat)
    requires Sound(s) && Live(s, g) && s.stages[g].Reading?
    ensures Possible(s, Read(g)) && Live(After(s, Read(g)), g) && Threat(After(s, Read(g)).c) == Threat(s.c)
    ensures !Threat(s.c) ==> Clean(After(s, Read(g)), g)
  {
    var t := After(s, Read(g));
    forall i | 0 <= i < |s.c.publications| ensures Threatens(t.c, i) == Threatens(s.c, i) {}
    if Threat(t.c) {
      var i :| 0 <= i < |t.c.publications| && Threatens(t.c, i);
      assert i < |s.c.publications|;
    }
  }

  /** The runs that go on with this read and bring the refresh to its end, current and unaborted. */
  ghost predicate EndsAfterRead(s: Provider, g: nat, moves: seq<Move>) {
    && moves != [] && moves[0] == Read(g) && IsRun(s, moves)
    && Live(End(s, moves), g) && End(s, moves).stages[g].Ended?
  }

  lemma CleanReadAgrees(s: Provider, g: nat, moves: seq<Move>)
    requires Sound(s) && Live(s, g) && s.stages[g].Reading? && !Threat(s.c) && EndsAfterRead(s, g, moves)
    ensures Agree(End(s, moves).c)
  {
    ReadClean(s, g);
    MoveKeeps(s, Read(g));
    hide Sound, After, Threat, Possible;
    CleanThrough(After(s, Read(g)), moves[1..], g);
  }

  // ---------------------------------------------------------------- a threat comes true

  lemma {:induction false} RunOn(s: Provider, moves: seq<Move>, m: Move)
    requires IsRun(s, moves) && Possible(End(s, moves), m)
    ensures IsRun(s, moves + [m]) && End(s, moves + [m]) == After(End(s, moves), m)
    decreases |moves|
  {
    if moves == [] {
      assert ([] + [m])[1..] == [];
    } else {
      assert (moves + [m])[0] == moves[0] && (moves + [m])[1..] == moves[1..] + [m];
      hide After, Possible;
      RunOn(After(s, moves[0]), moves[1..], m);
    }
  }

  ghost predicate Leads(s: Provider, t: Provider) {
    exists moves :: IsRun(s, moves) && End(s, moves) == t
  }

  lemma OneMore(s: Provider, t: Provider, m: Move) returns (next: Provider)
    requires Leads(s, t) && Sound(t) && Possible(t, m)
    ensures next == After(t, m) && Leads(s, next) && Sound(next)
  {
    MoveKeeps(t, m);
    hide Possible, After, Sound;
    var moves :| IsRun(s, moves) && End(s, moves) == t;
    RunOn(s, moves, m);
    next := After(t, m);
  }

  /** The older write is over: the store holds `x`, and `m`, read before, waits to be restored as publication `n`. */
  predicate Parted(t: Provider, g: nat, n: nat, m: Models, x: Models) {
    && Live(t, g) && (t.stages[g] == Restoring(true, n) || t.stages[g] == Restoring(false, n))
    && |t.c.publications| == n + 1 && t.c.publications[n].generation == g && t.c.publications[n].persist.Keep?
    && t.c.publications[n].update == Some(m) && t.c.publications[n].phase.Queued?
    && t.c.store == Some(x) && m != x
    && forall i :: 0 <= i < n ==> !t.c.publications[i].phase.Storing?
  }

  /** What older refreshes still have in the chain is refused, one after another. */
  lemma {:induction false} Drained(s: Provider, t: Provider, g: nat, n: nat, m: Models, x: Models, j: nat) returns (end: Provider)
    requires Leads(s, t) && Sound(t) && Parted(t, g, n, m, x) && j <= n && AllOver(t.c, j)
    ensures Leads(s, end) && Sound(end) && Parted(end, g, n, m, x) && AllOver(end.c, n)
    decreases n - j
  {
    end := t;
    if j < n {
      hide Leads;
      assert Own(t, g) && Chained(t.c);
      var next := t;
      if !Over(t.c, j) {
        assert t.c.publications[j].phase.Queued?;
        assert t.c.publications[j].previous.Some? ==> Over(t.c, t.c.publications[j].previous.value);
        next := OneMore(s, t, Other(Turn(j)));
        StillParted(t, g, n, m, x, j);
      }
      hide Sound, Parted, After;
      assert AllOver(next.c, j + 1);
      end := Drained(s, next, g, n, m, x, j + 1);
    }
  }

  lemma StillParted(t: Provider, g: nat, n: nat, m: Models, x: Models, j: nat)
    requires Parted(t, g, n, m, x) && Own(t, g) && j < n && !Over(t.c, j) && AllOver(t.c, j) && Possible(t, Other(Turn(j)))
    ensures Parted(After(t, Other(Turn(j))), g, n, m, x) && AllOver(After(t, Other(Turn(j))).c, j + 1)
  {
    assert t.c.publications[j].generation != g;
    var next := After(t, Other(Turn(j)));
    assert forall i :: 0 <= i < n && i != j ==> next.c.publications[i] == t.c.publications[i];
    assert next.c.publications[j].phase == Finished(false);
    forall k | 0 <= k < j + 1 ensures Over(next.c, k) {
      if k < j { assert Over(t.c, k); }
    }
  }

  lemma TurnRestores(t: Provider, g: nat, n: nat, m: Models, x: Models)
    requires Parted(t, g, n, m, x) && Chained(t.c) && AllOver(t.c, n)
    ensures Possible(t, Other(Turn(n)))
    ensures var next := After(t, Other(Turn(n)));
            && Live(next, g) && next.stages == t.stages && next.c.models == m && next.c.store == Some(x)
            && n < |next.c.publications| && next.c.publications[n].phase == Finished(true)
  {
    assert t.c.publications[n].previous.Some? ==> t.c.publications[n].previous.value + 1 == n;
  }

  /** The restored refresh goes no further. */
  lemma RestoredEnds(t: Provider, g: nat, n: nat)
    requires Live(t, g) && (t.stages[g] == Restoring(true, n) || t.stages[g] == Restoring(false, n))
    requires n < |t.c.publications| && t.c.publications[n].phase == Finished(true)
    ensures Possible(t, Restored(g)) && Possible(After(t, Restored(g)), Leave(g))
    ensures var end := After(After(t, Restored(g)), Leave(g)); end.c == t.c && Live(end, g) && end.stages[g] == Ended(false)
  {
  }

  /** The old models are restored over a store that has others by now. */
  lemma RestoredOld(s: Provider, t: Provider, g: nat, n: nat, m: Models, x: Models) returns (end: Provider)
    requires Leads(s, t) && Sound(t) && Parted(t, g, n, m, x) && AllOver(t.c, n)
    ensures Leads(s, end) && Live(end, g) && end.stages[g] == Ended(false) && !Agree(end.c)
  {
    hide Leads, After, Possible, AllOver, Chained;
    TurnRestores(t, g, n, m, x);
    var applied := OneMore(s, t, Other(Turn(n)));
    RestoredEnds(applied, g, n);
    hide Sound;
    var restored := OneMore(s, applied, Restored(g));
    end := OneMore(s, restored, Leave(g));
  }

  /** The older write, which was under way when this refresh read, ends. */
  lemma WriteEnds(s: Provider, g: nat, i: nat)
    requires Sound(s) && Live(s, g) && s.stages[g].Reading? && i < |s.c.publications| && Threatens(s.c, i)
    ensures Possible(s, Read(g)) && Possible(After(s, Read(g)), Other(StoreDone(i)))
    ensures var t, x := After(After(s, Read(g)), Other(StoreDone(i))), Held(StoreAfter(s.c.store, s.c.publications[i].persist));
            && x != Held(s.c.store) && t.c.store == Some(x) && t.c.models == s.c.models
            && (s.c.store.Some? ==> Parted(t, g, |s.c.publications|, s.c.store.value, x) && AllOver(t.c, i))
            && (s.c.store.None? ==> Live(t, g) && (t.stages[g].Between? || t.stages[g].Fetching?))
  {
    assert KindOf(s.c.publications[i]) && AllOver(s.c, i);
    var read := After(s, Read(g));
    var t := After(read, Other(StoreDone(i)));
    forall j | 0 <= j < |s.c.publications| && j != i
      ensures !s.c.publications[j].phase.Storing? && t.c.publications[j] == s.c.publications[j]
    {
      if s.c.publications[j].phase.Storing? { OneStoring(s.c, i, j); }
    }
    forall k | 0 <= k < i ensures Over(t.c, k) { assert Over(s.c, k); }
  }

  lemma ThreatEnds(s: Provider, g: nat, i: nat) returns (end: Provider)
    requires Sound(s) && Live(s, g) && s.stages[g].Reading? && i < |s.c.publications| && Threatens(s.c, i)
    ensures Possible(s, Read(g)) && Leads(After(s, Read(g)), end)
    ensures Live(end, g) && end.stages[g] == Ended(false) && !Agree(end.c)
  {
    WriteEnds(s, g, i);
    var read := After(s, Read(g));
    assert Leads(read, read) by { assert IsRun(read, []) && End(read, []) == read; }
    assert s.c.store.None? ==> s.c.models == [];
    MoveKeeps(s, Read(g));
    hide Sound, After, Possible, Threatens, Parted, AllOver, Leads;
    end := OneMore(read, read, Other(StoreDone(i)));
    if s.c.store.Some? {
      var m, x := s.c.store.value, Held(StoreAfter(s.c.store, s.c.publications[i].persist));
      end := Drained(read, end, g, |s.c.publications|, m, x, i);
      end := RestoredOld(read, end, g, |s.c.publications|, m, x);
    } else {
      LeaveEnds(end, g);
      end := OneMore(read, end, Leave(g));
    }
  }

  lemma ThreatComesTrue(s: Provider, g: nat)
    requires Sound(s) && Live(s, g) && s.stages[g].Reading? && Threat(s.c)
    ensures exists moves :: EndsAfterRead(s, g, moves) && !Agree(End(s, moves).c)
  {
    var i :| 0 <= i < |s.c.publications| && Threatens(s.c, i);
    var end := ThreatEnds(s, g, i);
    hide Sound, After, Possible, Agree, Threatens, Live;
    var moves :| IsRun(After(s, Read(g)), moves) && End(After(s, Read(g)), moves) == end;
    assert ([Read(g)] + moves)[0] == Read(g) && ([Read(g)] + moves)[1..] == moves;
    assert EndsAfterRead(s, g, [Read(g)] + moves);
  }

  lemma LeaveEnds(t: Provider, g: nat)
    requires Live(t, g) && (t.stages[g].Between? || t.stages[g].Fetching?)
    ensures Possible(t, Leave(g)) && Live(After(t, Leave(g)), g)
    ensures After(t, Leave(g)).c == t.c && After(t, Leave(g)).stages[g] == Ended(false)
  {
  }

  /**
   Exactly when a refresh may trust what it reads, in whatever state a run has brought it to: every way to go on that
   ends it while it is current and unaborted leaves memory as the store is, if and only if no older refresh is writing
   something else when it reads.
   */
  lemma ReadAgreesIff(before: seq<Move>, g: nat)
    requires IsRun(Provider(Start(), map[]), before)
    requires var s := End(Provider(Start(), map[]), before); Live(s, g) && s.stages[g].Reading?
    ensures var s := End(Provider(Start(), map[]), before);
            (forall moves :: EndsAfterRead(s, g, moves) ==> Agree(End(s, moves).c)) <==> !Threat(s.c)
  {
    StartSound();
    hide Start, Sound, Agree, Threat;
    RunKeepsSound(Provider(Start(), map[]), before);
    hide Live;
    var s := End(Provider(Start(), map[]), before);
    if Threat(s.c) {
      ThreatComesTrue(s, g);
    } else {
      forall moves | EndsAfterRead(s, g, moves) ensures Agree(End(s, moves).c) { CleanReadAgrees(s, g, moves); }
    }
  }

  // ---------------------------------------------------------------- it happens

  /** A first refresh is storing `fetched`, and a second one has begun. */
  predicate Overtaken(s: Provider, fetched: Models) {
    && Live(s, 2) && s.stages[2] == Reading(false) && s.c.store.None?
    && |s.c.publications| == 1 && s.c.publications[0].phase.Storing? && s.c.publications[0].generation == 1
    && s.c.publications[0].persist == Store(fetched)
  }

  /** Nothing read yet, one refresh. */
  predicate First(s: Provider, stage: Stage) {
    && s.c.generation == 1 && s.c.aborted == {} && s.stages == map[1 := stage] && s.c.store.None?
    && s.c.publications == [] && s.c.tail.None? && s.c.controller == Some(1)
  }

  lemma OpenFirst(start: Provider)
    requires start == Provider(Start(), map[])
    ensures Possible(start, Open) && First(After(start, Open), Reading(false))
  {
  }

  lemma LeadsSelf(s: Provider)
    ensures Leads(s, s)
  {
    assert IsRun(s, []) && End(s, []) == s;
  }

  lemma Begun(start: Provider) returns (s: Provider)
    requires start == Provider(Start(), map[])
    ensures Leads(start, s) && Sound(s) && First(s, Reading(false))
  {
    StartSound();
    OpenFirst(start);
    hide *;
    LeadsSelf(start);
    s := OneMore(start, start, Open);
  }

  lemma Overtakes(start: Provider, storing: Provider, fetched: Models) returns (s: Provider)
    requires Leads(start, storing) && Sound(storing) && Possible(storing, Other(Turn(0))) && Live(storing, 1)
    requires storing.stages == map[1 := Saving(0)] && storing.c.store.None? && |storing.c.publications| == 1
    requires storing.c.controller == Some(1) && storing.c.aborted == {}
    requires storing.c.publications[0] == Publication(1, Store(fetched), Some(fetched), None, Queued)
    ensures Leads(start, s) && Sound(s) && Overtaken(s, fetched)
  {
    hide Leads, Sound;
    s := OneMore(start, storing, Other(Turn(0)));
    s := OneMore(start, s, Open);
  }

  /** An offline refresh that begins while an older one is storing may end with memory and store apart. */
  lemma MemoryLeftBehind(fetched: Models)
    requires fetched != []
    ensures exists moves, g :: IsRun(Provider(Start(), map[]), moves) && Live(End(Provider(Start(), map[]), moves), g)
              && End(Provider(Start(), map[]), moves).stages[g] == Ended(false) && !Agree(End(Provider(Start(), map[]), moves).c)
  {
    var start := Provider(Start(), map[]);
    hide Leads, Sound, Start, First, Possible;
    var s := Begun(start);
    s := Fetches(start, s, fetched);
    s := Overtakes(start, s, fetched);
    assert Threatens(s.c, 0);
    var end := ThreatEnds(s, 2, 0);
    hide *;
    Joined(start, s, Read(2), end);
    RunTo(start, end);
  }

  lemma RunTo(start: Provider, end: Provider)
    requires Leads(start, end)
    ensures exists moves :: IsRun(start, moves) && End(start, moves) == end
  {
  }

  lemma Fetches(start: Provider, first: Provider, fetched: Models) returns (s: Provider)
    requires Leads(start, first) && Sound(first) && First(first, Reading(false))
    ensures Leads(start, s) && Sound(s) && Possible(s, Other(Turn(0))) && Live(s, 1) && s.stages == map[1 := Saving(0)]
    ensures s.c.store.None? && |s.c.publications| == 1 && s.c.controller == Some(1) && s.c.aborted == {}
    ensures s.c.publications[0] == Publication(1, Store(fetched), Some(fetched), None, Queued)
  {
    hide Leads, Sound;
    s := OneMore(start, first, Read(1));
    assert First(s, Between);
    s := OneMore(start, s, Further(1));
    assert First(s, Reading(true));
    s := OneMore(start, s, Read(1));
    assert First(s, Fetching);
    s := OneMore(start, s, Fetched(1, fetched));
  }

  lemma Joined(start: Provider, s: Provider, m: Move, end: Provider)
    requires Leads(start, s) && Sound(s) && Possible(s, m) && Leads(After(s, m), end)
    ensures Leads(start, end)
  {
    var more :| IsRun(After(s, m), more) && End(After(s, m), more) == end;
    var next := OneMore(start, s, m);
    JoinedRun(start, next, more);
    hide Leads;
  }

  lemma {:induction false} JoinedRun(start: Provider, s: Provider, more: seq<Move>)
    requires Leads(start, s) && Sound(s) && IsRun(s, more)
    ensures Leads(start, End(s, more))
    decreases |more|
  {
    hide Leads, Sound, Possible, After;
    if more != [] {
      var next := OneMore(start, s, more[0]);
      JoinedRun(start, next, more[1..]);
    }
  }
}
