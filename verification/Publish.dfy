/** One first-in-first-out queue of notifications, whose tasks may themselves publish. */
module Publications {
  /** What a task does to the queue while it runs: publications, and multi-step changes holding delivery. */
  datatype Action = Enqueue(task: Task) | Hold(actions: seq<Action>)
  datatype Task = Task(id: nat, actions: seq<Action>)

  function TaskSize(task: Task): nat {
    1 + ActionsSize(task.actions)
  }

  function ActionSize(action: Action): nat {
    match action
    case Enqueue(task) => 1 + TaskSize(task)
    case Hold(inner) => 1 + ActionsSize(inner)
  }

  function ActionsSize(actions: seq<Action>): nat {
    if actions == [] then 0 else ActionSize(actions[0]) + ActionsSize(actions[1..])
  }

  function QueueSize(queue: seq<Task>): nat {
    if queue == [] then 0 else TaskSize(queue[0]) + QueueSize(queue[1..])
  }

  function EnqueuedBy(action: Action): (tasks: seq<Task>)
    ensures QueueSize(tasks) <= ActionSize(action)
  {
    match action
    case Enqueue(task) => [task]
    case Hold(inner) => Enqueued(inner)
  }

  /** What actions enqueue: a hold only defers delivery. */
  function Enqueued(actions: seq<Action>): (tasks: seq<Task>)
    ensures QueueSize(tasks) <= ActionsSize(actions)
  {
    if actions == [] then []
    else
      var first, rest := EnqueuedBy(actions[0]), Enqueued(actions[1..]);
      QueueSizeConcat(first, rest);
      first + rest
  }

  lemma {:induction false} QueueSizeConcat(a: seq<Task>, b: seq<Task>)
    ensures QueueSize(a + b) == QueueSize(a) + QueueSize(b)
    decreases |a|
  {
    if a == [] {
      assert a + b == b;
    } else {
      assert (a + b)[1..] == a[1..] + b;
      QueueSizeConcat(a[1..], b);
    }
  }

  /** Everything delivered once delivery starts: tasks in enqueue order, with what they enqueue after them. */
  function Delivery(queue: seq<Task>): seq<Task>
    decreases QueueSize(queue)
  {
    if queue == [] then []
    else
      QueueSizeConcat(queue[1..], Enqueued(queue[0].actions));
      [queue[0]] + Delivery(queue[1..] + Enqueued(queue[0].actions))
  }

  /** What delivering a queue enqueues, in order. */
  function Reactions(queue: seq<Task>): (tasks: seq<Task>)
    ensures QueueSize(tasks) + |queue| <= QueueSize(queue)
  {
    if queue == [] then []
    else
      QueueSizeConcat(Enqueued(queue[0].actions), Reactions(queue[1..]));
      Enqueued(queue[0].actions) + Reactions(queue[1..])
  }

  /**
   No re-entrant publication overtakes: everything queued is delivered, in order, before anything it causes,
   and so on for what that causes.
   */
  lemma {:induction false} DeliveredInWaves(queue: seq<Task>)
    ensures Delivery(queue) == queue + Delivery(Reactions(queue))
  {
    AfterPrefix(queue, []);
    assert queue + [] == queue && [] + Reactions(queue) == Reactions(queue);
  }

  lemma {:induction false} AfterPrefix(queue: seq<Task>, later: seq<Task>)
    ensures Delivery(queue + later) == queue + Delivery(later + Reactions(queue))
    decreases |queue|
  {
    if queue == [] {
      assert queue + later == later && later + [] == later;
    } else {
      AfterPrefixStep(queue[0], queue[1..], later);
      assert [queue[0]] + queue[1..] == queue;
      AfterPrefix(queue[1..], later + Enqueued(queue[0].actions));
      hide Delivery, Enqueued;
      Associate([queue[0]], queue[1..], Delivery((later + Enqueued(queue[0].actions)) + Reactions(queue[1..])));
      Associate(later, Enqueued(queue[0].actions), Reactions(queue[1..]));
    }
  }

  lemma AfterPrefixStep(task: Task, rest: seq<Task>, later: seq<Task>)
    ensures Delivery([task] + rest + later) == [task] + Delivery(rest + (later + Enqueued(task.actions)))
  {
    hide Enqueued, QueueSize;
    var all := [task] + rest + later;
    assert all[1..] == rest + later;
    assert rest + later + Enqueued(task.actions) == rest + (later + Enqueued(task.actions));
  }

  lemma Associate(a: seq<Task>, b: seq<Task>, c: seq<Task>)
    ensures (a + b) + c == a + (b + c)
  {
  }

  /** One turn of the delivery loop. */
  lemma DeliveryStep(delivered: seq<Task>, queue: seq<Task>)
    requires queue != []
    ensures delivered + queue == (delivered + [queue[0]]) + queue[1..]
    ensures delivered + Delivery(queue) == (delivered + [queue[0]]) + Delivery(queue[1..] + Enqueued(queue[0].actions))
    ensures QueueSize(queue[1..] + Enqueued(queue[0].actions)) < QueueSize(queue)
  {
    QueueSizeConcat(queue[1..], Enqueued(queue[0].actions));
    DeliveryUnfold(queue);
    hide Enqueued, Delivery, ActionsSize;
    Associate(delivered, [queue[0]], Delivery(queue[1..] + Enqueued(queue[0].actions)));
    Associate(delivered, [queue[0]], queue[1..]);
    assert [queue[0]] + queue[1..] == queue;
  }

  lemma DeliveryUnfold(queue: seq<Task>)
    requires queue != []
    ensures Delivery(queue) == [queue[0]] + Delivery(queue[1..] + Enqueued(queue[0].actions))
  {
    hide Enqueued, QueueSize;
  }

  lemma PerformStep(queue: seq<Task>, actions: seq<Action>)
    requires actions != []
    ensures (queue + EnqueuedBy(actions[0])) + Enqueued(actions[1..]) == queue + Enqueued(actions)
  {
  }

  lemma NothingLeft(delivered: seq<Task>)
    ensures delivered + Delivery([]) == delivered
  {
  }

  class PublicationQueue {
    var queue: seq<Task>
    var held: nat
    var draining: bool
    /** What was started, and everything ever enqueued. */
    ghost var delivered: seq<Task>
    ghost var log: seq<Task>

    predicate Idle()
      reads this
    {
      !draining && held == 0
    }

    /** Whenever nobody delivers or holds, nothing waits; what was enqueued is delivered in that order. */
    ghost predicate Valid()
      reads this
    {
      log == delivered + queue && (Idle() ==> queue == [])
    }

    constructor ()
      ensures Valid() && Idle() && log == []
    {
      queue, held, draining, delivered, log := [], 0, false, [], [];
    }

    /** While another runs or a change is held it waits; otherwise it and everything it causes is delivered. */
    method Enqueue(task: Task)
      requires Valid()
      modifies this
      ensures Valid() && held == old(held) && draining == old(draining)
      ensures !old(Idle()) ==> queue == old(queue) + [task] && delivered == old(delivered)
      ensures old(Idle()) ==> delivered == old(delivered) + Delivery([task])
      decreases if Idle() then 1 else 0, 0, 1
    {
      queue := queue + [task];
      log := log + [task];
      assert log == delivered + queue;
      assert old(queue) == [] ==> queue == [task];
      Drain();
    }

    /** Nothing is delivered while the change is made, and all of it afterwards. */
    method HoldPublications(actions: seq<Action>)
      requires Valid()
      modifies this
      ensures Valid() && held == old(held) && draining == old(draining)
      ensures !old(Idle()) ==> queue == old(queue) + Enqueued(actions) && delivered == old(delivered)
      ensures old(Idle()) ==> delivered == old(delivered) + Delivery(Enqueued(actions))
      decreases if Idle() then 1 else 0, ActionsSize(actions), 1
    {
      held := held + 1;
      Perform(actions);
      assert delivered == old(delivered);
      held := held - 1;
      assert old(queue) == [] ==> queue == Enqueued(actions);
      Drain();
    }

    /** A task's or a held change's code. */
    method Perform(actions: seq<Action>)
      requires Valid() && !Idle()
      modifies this
      ensures Valid() && held == old(held) && draining == old(draining)
      ensures queue == old(queue) + Enqueued(actions) && delivered == old(delivered)
      decreases 0, ActionsSize(actions), 0
    {
      if actions == [] {
        assert old(queue) + [] == old(queue);
        return;
      }
      PerformStep(queue, actions);
      assert ActionsSize(actions) == ActionSize(actions[0]) + ActionsSize(actions[1..]);
      match actions[0] {
        case Enqueue(task) => Enqueue(task);
        case Hold(inner) => HoldPublications(inner);
      }
      Perform(actions[1..]);
    }

    method Drain()
      requires log == delivered + queue
      modifies this
      ensures Valid() && held == old(held) && draining == old(draining)
      ensures !old(Idle()) ==> queue == old(queue) && delivered == old(delivered)
      ensures old(Idle()) ==> delivered == old(delivered) + Delivery(old(queue))
      decreases if Idle() then 1 else 0, 0, 0
    {
      if draining || held > 0 { return; }
      draining := true;
      hide Delivery, QueueSize, Enqueued;
      while queue != []
        invariant log == delivered + queue && draining && held == 0
        invariant old(delivered) + Delivery(old(queue)) == delivered + Delivery(queue)
        decreases QueueSize(queue)
      {
        var task := queue[0];
        DeliveryStep(delivered, queue);
        queue := queue[1..];
        delivered := delivered + [task];
        Perform(task.actions);
      }
      NothingLeft(delivered);
      draining := false;
    }
  }
}
