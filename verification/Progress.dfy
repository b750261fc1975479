/** Adaptive progress commits: one write at a time, paced by what was written. */
module Pacing {
  import opened Wrappers

  /** Milliseconds of pause a written byte buys, at 100 KiB/s. */
  const PER_BYTE: real := 1000.0 / 102400.0

  /** A write: when it started and how many bytes the successful ones before it wrote. */
  datatype Start = Start(at: real, written: nat)

  /** `settled`: the promise of the write settled, its `finally` has not run. */
  datatype Flight = Flight(index: nat, started: real, waiters: seq<nat>, settled: bool)

  /**
   `timer`: when the pending timer is due.  `marked[w]`: how many writes had started when waiter `w` marked;
   `settledBy[w]`: the write it settled with.  `active`: writes running.
   */
  datatype Progress = Progress(now: real, nextAt: real, dirty: bool, stopped: bool, timer: Option<real>, flight: Option<Flight>,
                               waiters: seq<nat>, active: nat, starts: seq<Start>, written: nat,
                               marked: map<nat, nat>, settledBy: map<nat, nat>)

  datatype Step =
    | Tick(to: real)
    | Mark
    | MarkAndWait(waiter: nat)
    | Fire
    | Succeed(bytes: nat)
    | Fail
    | Finally
    | Stop
    | TakeWaiters

  function Flushed(p: Progress): Progress {
    if p.stopped || !p.dirty then p
    else p.(dirty := false, waiters := [], flight := Some(Flight(|p.starts|, p.now, p.waiters, false)),
            active := p.active + 1, starts := p.starts + [Start(p.now, p.written)])
  }

  function Scheduled(p: Progress): Progress {
    if p.stopped || p.timer.Some? || p.flight.Some? then p
    else if p.nextAt <= p.now then Flushed(p)
    else p.(timer := Some(p.nextAt))
  }

  predicate Running(p: Progress) {
    p.flight.Some? && !p.flight.value.settled
  }

  predicate Enabled(p: Progress, step: Step) {
    match step
    case Tick(to) => p.now <= to
    case Mark => true
    case MarkAndWait(w) => w !in p.marked
    case Fire => p.timer.Some? && p.timer.value <= p.now
    case Succeed(_) => Running(p) && p.active > 0
    case Fail => Running(p) && p.active > 0
    case Finally => p.flight.Some? && p.flight.value.settled
    case Stop => true
    case TakeWaiters => p.stopped && p.flight.None?
  }

  function Max(a: real, b: real): real {
    if a < b then b else a
  }

  function SettledWith(settledBy: map<nat, nat>, f: Flight): map<nat, nat> {
    settledBy + map w | w in f.waiters :: f.index
  }

  /** The write in flight settled, and its waiters with it. */
  function Settled(p: Progress, next: real): Progress
    requires Running(p) && p.active > 0
  {
    p.(nextAt := next, flight := Some(p.flight.value.(settled := true)), active := p.active - 1,
       settledBy := SettledWith(p.settledBy, p.flight.value))
  }

  /** Timers fire when they are due or later. */
  function Next(p: Progress, minInterval: real, step: Step): Progress
    requires Enabled(p, step)
  {
    match step
    case Tick(to) => p.(now := to)
    case Mark => Scheduled(p.(dirty := true))
    case MarkAndWait(w) => Scheduled(p.(dirty := true, waiters := p.waiters + [w], marked := p.marked[w := |p.starts|]))
    case Fire => Flushed(p.(timer := None))
    case Succeed(bytes) =>
      Settled(p, p.flight.value.started + Max(minInterval, bytes as real * PER_BYTE)).(written := p.written + bytes)
    case Fail => Settled(p, p.flight.value.started + minInterval)
    case Finally =>
      var left := p.(flight := None);
      if p.dirty then Scheduled(left) else left
    case Stop => p.(stopped := true, timer := None)
    case TakeWaiters => p.(waiters := [])
  }

  // ---------------------------------------------------------------- what every run keeps

  /** A write starts only when the one before it is over, and what is not written yet has something that will start one. */
  predicate Driven(p: Progress) {
    && p.active == (if Running(p) then 1 else 0)
    && (p.dirty && !p.stopped ==> p.timer.Some? || p.flight.Some?)
    && (p.timer.Some? ==> p.flight.None? && p.timer.value == p.nextAt)
    && (p.waiters != [] && !p.stopped ==> p.dirty)
  }

  /** Each write starts late enough for everything written before it, and at least the interval after its predecessor. */
  predicate Spaced(minInterval: real, starts: seq<Start>) {
    && (forall i :: 0 <= i < |starts| ==>
          starts[i].written == 0 || starts[i].written as real * PER_BYTE <= starts[i].at - starts[0].at)
    && (forall i :: 0 <= i < |starts| ==> starts[0].at <= starts[i].at)
    && (forall i :: 0 < i < |starts| ==> starts[i - 1].at + minInterval <= starts[i].at)
  }

  /** By `nextAt` everything that was written is paid for. */
  predicate Paid(p: Progress, minInterval: real) {
    && Spaced(minInterval, p.starts)
    && (p.starts == [] ==> p.written == 0 && p.flight.None?)
    && (p.written == 0 || p.written as real * PER_BYTE <= p.nextAt - p.starts[0].at)
    && (Running(p) ==> p.flight.value.index + 1 == |p.starts| && p.flight.value.started == p.starts[|p.starts| - 1].at
                       && p.nextAt <= p.flight.value.started)
    && (p.starts != [] && !Running(p) ==> p.starts[|p.starts| - 1].at + minInterval <= p.nextAt)
  }

  /** Waiters settle with a write that started after they marked, and none is lost. */
  ghost predicate Waiting(p: Progress) {
    && (forall w :: w in p.waiters ==> w in p.marked && p.marked[w] <= |p.starts|)
    && (p.flight.Some? ==>
          && p.flight.value.index < |p.starts|
          && forall w :: w in p.flight.value.waiters ==> w in p.marked && p.marked[w] <= p.flight.value.index)
    && (forall w :: w in p.settledBy ==> w in p.marked && p.marked[w] <= p.settledBy[w] < |p.starts|)
    && (forall w :: w in p.marked && !p.stopped ==>
          w in p.waiters || (Running(p) && w in p.flight.value.waiters) || w in p.settledBy)
  }

  ghost predicate Inv(p: Progress, minInterval: real) {
    0.0 <= minInterval && Driven(p) && Paid(p, minInterval) && Waiting(p)
  }

  lemma FlushedPaid(p: Progress, minInterval: real)
    requires 0.0 <= minInterval && Paid(p, minInterval) && p.flight.None? && p.nextAt <= p.now
    ensures Paid(Flushed(p), minInterval)
  {
    var q := Flushed(p);
    if q.starts != p.starts {
      var last := Start(p.now, p.written);
      assert forall i :: 0 <= i < |p.starts| ==> q.starts[i] == p.starts[i];
      if p.starts != [] { assert p.starts[0].at <= p.starts[|p.starts| - 1].at; }
    }
  }

  lemma FlushedWaiting(p: Progress)
    requires Waiting(p) && p.flight.None?
    ensures Waiting(Flushed(p))
  {
  }

  /** A change is noted, and something brings the next commit. */
  lemma ScheduledKeeps(p: Progress, minInterval: real)
    requires 0.0 <= minInterval && Paid(p, minInterval) && Waiting(p) && p.active == (if Running(p) then 1 else 0)
    requires p.dirty && (p.timer.Some? ==> p.flight.None? && p.timer.value == p.nextAt)
    ensures Inv(Scheduled(p), minInterval)
  {
    if p.flight.None? {
      if p.nextAt <= p.now { FlushedPaid(p, minInterval); }
      FlushedWaiting(p);
    }
    hide Paid, Waiting;
  }

  lemma SettledPaid(p: Progress, minInterval: real, bytes: nat, next: real)
    requires 0.0 <= minInterval && Paid(p, minInterval) && Running(p) && p.active > 0
    requires next == p.flight.value.started + Max(minInterval, bytes as real * PER_BYTE)
    ensures Paid(Settled(p, next).(written := p.written + bytes), minInterval)
  {
    var started := p.flight.value.started;
    assert started + bytes as real * PER_BYTE <= next;
    assert (p.written + bytes) as real * PER_BYTE == p.written as real * PER_BYTE + bytes as real * PER_BYTE;
    assert p.starts[0].at <= started;
  }

  lemma SettledWaiting(p: Progress, next: real, bytes: nat)
    requires Waiting(p) && Running(p) && p.active > 0
    ensures Waiting(Settled(p, next).(written := p.written + bytes))
  {
  }

  lemma SettledKeeps(p: Progress, minInterval: real, bytes: nat, next: real)
    requires Inv(p, minInterval) && Running(p) && p.active > 0
    requires next == p.flight.value.started + Max(minInterval, bytes as real * PER_BYTE)
    ensures Inv(Settled(p, next).(written := p.written + bytes), minInterval)
  {
    SettledPaid(p, minInterval, bytes, next);
    SettledWaiting(p, next, bytes);
    hide Paid, Waiting;
  }

  lemma FireKeeps(p: Progress, minInterval: real)
    requires Inv(p, minInterval) && Enabled(p, Fire)
    ensures Inv(Next(p, minInterval, Fire), minInterval)
  {
    FlushedPaid(p.(timer := None), minInterval);
    FlushedWaiting(p.(timer := None));
    hide Paid, Waiting;
  }

  lemma FailKeeps(p: Progress, minInterval: real)
    requires Inv(p, minInterval) && Enabled(p, Fail)
    ensures Inv(Next(p, minInterval, Fail), minInterval)
  {
    SettledKeeps(p, minInterval, 0, p.flight.value.started + minInterval);
    hide Inv, Settled;
    assert Settled(p, p.flight.value.started + minInterval).(written := p.written) == Settled(p, p.flight.value.started + minInterval);
  }

  lemma MarkKeeps(p: Progress, minInterval: real)
    requires Inv(p, minInterval) && Enabled(p, Mark)
    ensures Inv(Next(p, minInterval, Mark), minInterval)
  {
    hide Scheduled, Spaced;
    ScheduledKeeps(p.(dirty := true), minInterval);
  }

  lemma MarkAndWaitKeeps(p: Progress, minInterval: real, w: nat)
    requires Inv(p, minInterval) && Enabled(p, MarkAndWait(w))
    ensures Inv(Next(p, minInterval, MarkAndWait(w)), minInterval)
  {
    hide Scheduled, Spaced;
    ScheduledKeeps(p.(dirty := true, waiters := p.waiters + [w], marked := p.marked[w := |p.starts|]), minInterval);
  }

  lemma SucceedKeeps(p: Progress, minInterval: real, bytes: nat)
    requires Inv(p, minInterval) && Enabled(p, Succeed(bytes))
    ensures Inv(Next(p, minInterval, Succeed(bytes)), minInterval)
  {
    hide Settled, Inv;
    SettledKeeps(p, minInterval, bytes, p.flight.value.started + Max(minInterval, bytes as real * PER_BYTE));
  }

  lemma FinallyKeeps(p: Progress, minInterval: real)
    requires Inv(p, minInterval) && Enabled(p, Finally)
    ensures Inv(Next(p, minInterval, Finally), minInterval)
  {
    hide Scheduled, Spaced;
    if p.dirty { ScheduledKeeps(p.(flight := None), minInterval); }
  }

  lemma PlainKeeps(p: Progress, minInterval: real, step: Step)
    requires Inv(p, minInterval) && Enabled(p, step) && (step.Tick? || step.Stop? || step.TakeWaiters?)
    ensures Inv(Next(p, minInterval, step), minInterval)
  {
    hide Scheduled, Flushed, Settled, Spaced;
  }

  lemma NextKeeps(p: Progress, minInterval: real, step: Step)
    requires Inv(p, minInterval) && Enabled(p, step)
    ensures Inv(Next(p, minInterval, step), minInterval)
  {
    hide Inv, Next, Enabled;
    match step
    case Mark => MarkKeeps(p, minInterval);
    case MarkAndWait(w) => MarkAndWaitKeeps(p, minInterval, w);
    case Fire => FireKeeps(p, minInterval);
    case Succeed(bytes) => SucceedKeeps(p, minInterval, bytes);
    case Fail => FailKeeps(p, minInterval);
    case Finally => FinallyKeeps(p, minInterval);
    case _ => PlainKeeps(p, minInterval, step);
  }

  // ---------------------------------------------------------------- runs

  function Created(now: real): Progress {
    Progress(now, 0.0, false, false, None, None, [], 0, [], 0, map[], map[])
  }

  function RunAll(p: Progress, minInterval: real, steps: seq<Step>): Option<Progress>
    decreases |steps|
  {
    if steps == [] then Some(p)
    else if Enabled(p, steps[0]) then RunAll(Next(p, minInterval, steps[0]), minInterval, steps[1..])
    else None
  }

  lemma {:induction false} RunKeeps(p: Progress, minInterval: real, steps: seq<Step>)
    requires Inv(p, minInterval) && RunAll(p, minInterval, steps).Some?
    ensures Inv(RunAll(p, minInterval, steps).value, minInterval)
    decreases |steps|
  {
    hide Inv, Next;
    if steps != [] {
      NextKeeps(p, minInterval, steps[0]);
      RunKeeps(Next(p, minInterval, steps[0]), minInterval, steps[1..]);
    }
  }

  /**
   In every run: at most one write at a time; before each write at most 100 KiB/s were written since the first one
   started; a change waits only behind a timer or a write; a waiter settles with a write that started after its mark.
   */
  lemma PacedRuns(now: real, minInterval: real, steps: seq<Step>)
    requires 0.0 <= now && 0.0 <= minInterval && RunAll(Created(now), minInterval, steps).Some?
    ensures var p := RunAll(Created(now), minInterval, steps).value;
            && p.active <= 1 && Spaced(minInterval, p.starts)
            && (p.dirty && !p.stopped ==> p.timer.Some? || p.flight.Some?)
            && (forall w :: w in p.settledBy ==> w in p.marked && p.marked[w] <= p.settledBy[w])
            && (forall w :: w in p.marked && !p.stopped && !Running(p) && !p.dirty ==> w in p.settledBy)
  {
    RunKeeps(Created(now), minInterval, steps);
  }

  // ---------------------------------------------------------------- the object

  /** The fields as they change in place; `now` is what the clock says.  The write in flight remembers `started` and `served`. */
  class ProgressCommits {
    const minInterval: real
    var nextAt: real
    var dirty: bool
    var stopped: bool
    var timer: Option<real>
    var inFlight: bool
    var started: real
    var served: seq<nat>
    var waiters: seq<nat>
    ghost var index: nat
    ghost var settled: bool
    ghost var active: nat
    ghost var starts: seq<Start>
    ghost var written: nat
    ghost var marked: map<nat, nat>
    ghost var settledBy: map<nat, nat>

    ghost function View(now: real): Progress
      reads this
    {
      Progress(now, nextAt, dirty, stopped, timer, if inFlight then Some(Flight(index, started, served, settled)) else None,
               waiters, active, starts, written, marked, settledBy)
    }

    constructor (minInterval: real)
      requires 0.0 <= minInterval
      ensures this.minInterval == minInterval
      ensures forall now :: View(now) == Created(now) && Inv(View(now), minInterval)
    {
      this.minInterval, nextAt, dirty, stopped, timer, inFlight, waiters := minInterval, 0.0, false, false, None, false, [];
      active, starts, written, marked, settledBy := 0, [], 0, map[], map[];
    }

    method MarkDirty(now: real)
      modifies this
      ensures View(now) == Next(old(View(now)), minInterval, Mark)
    {
      dirty := true;
      Schedule(now);
    }

    method MarkAndWait(now: real, waiter: nat)
      requires waiter !in marked
      modifies this
      ensures View(now) == Next(old(View(now)), minInterval, Step.MarkAndWait(waiter))
    {
      waiters := waiters + [waiter];
      marked := marked[waiter := |starts|];
      MarkDirty(now);
    }

    /** Stops committing; the waiters are left to the final commit once nothing is in flight. */
    method StopCommits(now: real)
      modifies this
      ensures View(now) == Next(old(View(now)), minInterval, Stop)
    {
      stopped := true;
      timer := None;
    }

    method Schedule(now: real)
      modifies this
      ensures View(now) == Scheduled(old(View(now)))
    {
      if stopped || timer.Some? || inFlight { return; }
      if nextAt - now <= 0.0 { Flush(now); } else { timer := Some(nextAt); }
    }

    method TimerFires(now: real)
      requires Enabled(View(now), Fire)
      modifies this
      ensures View(now) == Next(old(View(now)), minInterval, Fire)
    {
      timer := None;
      Flush(now);
    }

    method Flush(now: real)
      modifies this
      ensures View(now) == Flushed(old(View(now)))
    {
      if stopped || !dirty { return; }
      dirty := false;
      served, waiters := waiters, [];
      started, inFlight := now, true;
      index, settled, active, starts := |starts|, false, active + 1, starts + [Start(now, written)];
    }

    method WriteSucceeded(now: real, bytes: nat)
      requires Enabled(View(now), Succeed(bytes))
      modifies this
      ensures View(now) == Next(old(View(now)), minInterval, Succeed(bytes))
    {
      nextAt := started + Max(minInterval, bytes as real * PER_BYTE);
      settledBy := SettledWith(settledBy, Flight(index, started, served, settled));
      settled, active, written := true, active - 1, written + bytes;
    }

    method WriteFailed(now: real)
      requires Enabled(View(now), Fail)
      modifies this
      ensures View(now) == Next(old(View(now)), minInterval, Fail)
    {
      nextAt := started + minInterval;
      settledBy := SettledWith(settledBy, Flight(index, started, served, settled));
      settled, active := true, active - 1;
    }

    method WriteOver(now: real)
      requires Enabled(View(now), Finally)
      modifies this
      ensures View(now) == Next(old(View(now)), minInterval, Finally)
    {
      inFlight := false;
      if dirty { Schedule(now); }
    }
  }
}
