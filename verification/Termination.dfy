/**
 * Without broker redelivery the mesh always comes to rest: each queued copy carries a budget that
 * pays for its own handling, for every retry it can still fan out and for what its handler may announce.
 */
module Termination {
  import opened Domain
  import opened Saga
  import opened Mesh
  import opened Measures

  /** How far down the causal chain an event type is. */
  function Rank(t: EventType): nat {
    match t
    case ORDER_CREATED => 3
    case ORDER_CANCELLED => 3
    case STOCK_RESERVED => 2
    case _ => 1
  }

  function RetriesLeft(retry: nat): nat {
    if retry < MAX_RETRIES then MAX_RETRIES - retry else 0
  }

  function FailedWeight(t: EventType, retry: nat): nat
    decreases Rank(t), RetriesLeft(retry), 1
  {
    if retry + 1 < MAX_RETRIES then 2 + CopiesWeight(t, retry + 1) else 1
  }

  function ReadyWeight(t: EventType, retry: nat): nat
    decreases Rank(t), RetriesLeft(retry), 2
  {
    4 + FailedWeight(t, retry) + Announcing(t)
  }

  /** Room for whatever a handler of this type may announce. */
  function Announcing(t: EventType): nat
    decreases Rank(t), 0, 0
  {
    match t
    case ORDER_CREATED => NewsWeight(STOCK_RESERVED) + NewsWeight(STOCK_UNAVAILABLE)
    case ORDER_CANCELLED => NewsWeight(STOCK_RELEASED)
    case STOCK_RESERVED => NewsWeight(SHIPMENT_CREATED)
    case _ => 0
  }

  /** The cost of one publish: a ready copy per bound queue. */
  function CopiesWeight(t: EventType, retry: nat): nat
    decreases Rank(t), RetriesLeft(retry), 3
  {
    |Bound(t)| * ReadyWeight(t, retry)
  }

  function NewsWeight(t: EventType): nat
    decreases Rank(t), RetriesLeft(0), 4
  {
    CopiesWeight(t, 0)
  }

  function OutWeight(out: Option<Event>): nat {
    if out.Some? then NewsWeight(TypeOf(out.value)) else 0
  }

  function SlotWeight(x: Slot): nat {
    var t, r := TypeOf(x.copy.event), x.copy.retry;
    match x.place
    case Ready => ReadyWeight(t, r)
    case Taken => 3 + FailedWeight(t, r) + Announcing(t)
    case Committed(out) => 2 + FailedWeight(t, r) + OutWeight(out)
    case Announced => 1 + FailedWeight(t, r)
    case Failed => FailedWeight(t, r)
    case Requeued => 1
    case Dead => 0
  }

  function TaskWeight(t: Task): nat {
    match t
    case Announce(e) => 1 + NewsWeight(TypeOf(e))
    case CancelWrite(_) => 2 + NewsWeight(ORDER_CANCELLED)
  }

  ghost function Work(s: Mesh): nat {
    Sum(s.slots, SlotWeight) + Sum(s.tasks, TaskWeight)
  }

  predicate IsCommand(a: Action) {
    a.NewProduct? || a.NewOrder? || a.AskCancel? || a.MarkShipment?
  }

  /** The most work a client command can bring in, the command itself included. */
  function Cost(a: Action): nat {
    match a
    case NewProduct(_, _) => 1
    case NewOrder(o, customer, lines) => 1 + TaskWeight(Announce(Placed(o, customer, lines)))
    case AskCancel(o) => 1 + TaskWeight(CancelWrite(o))
    case MarkShipment(_, _) => 2 + NewsWeight(SHIPMENT_DELIVERED)
    case _ => 0
  }

  function TotalCost(acts: seq<Action>): nat {
    if acts == [] then 0 else TotalCost(acts[..|acts| - 1]) + Cost(acts[|acts| - 1])
  }

  lemma HandlerFitsBudget(q: Queue, e: Event, w: World, env: Env)
    ensures OutWeight(Handle(q, e, w, env).out) <= Announcing(TypeOf(e))
    ensures var out := Handle(q, e, w, env).out; out.Some? ==> Rank(TypeOf(out.value)) < Rank(TypeOf(e))
  {
    match e
    case OrderCreated(_, _, _, _) => assert OutWeight(None) == 0;
    case OrderCancelled(_, _) =>
    case StockReserved(_, _) =>
    case _ =>
  }

  lemma CopiedWeight(id: nat, e: Event, retry: nat, slept: nat)
    ensures Sum(FanOut(id, e, retry, slept), SlotWeight) == CopiesWeight(TypeOf(e), retry)
  {
    SumCopies(SlotWeight, ReadyWeight(TypeOf(e), retry), Bound(TypeOf(e)), id, e, retry, slept);
  }

  /** What a slot leaves behind in all: its next place and the copies made. */
  ghost function Remains(s: Mesh, a: Action): nat
    requires Enabled(s, a) && OnSlot(a)
  {
    Sum(Copied(s, a), SlotWeight) +
    if NextPlace(s, a).Some? then SlotWeight(Slot(a.x.copy, NextPlace(s, a).value)) else 0
  }

  lemma CommitPays(s: Mesh, x: Slot, env: Env)
    requires Enabled(s, Commit(x, env))
    ensures Remains(s, Commit(x, env)) + 1 <= SlotWeight(x)
  {
    HandlerFitsBudget(x.copy.queue, x.copy.event, s.world, env);
  }

  lemma PublishPays(s: Mesh, x: Slot)
    requires Enabled(s, Publish(x))
    ensures Remains(s, Publish(x)) + 1 <= SlotWeight(x)
  {
    CopiedWeight(|s.published|, x.place.out.value, 0, 0);
  }

  lemma FailurePays(t: EventType, retry: nat)
    requires retry + 1 < MAX_RETRIES
    ensures FailedWeight(t, retry) == 2 + CopiesWeight(t, retry + 1)
  {
  }

  lemma WeightOf(m: multiset<Slot>, id: nat, e: Event, retry: nat, slept: nat)
    requires m == FanOut(id, e, retry, slept)
    ensures Sum(m, SlotWeight) == CopiesWeight(TypeOf(e), retry)
  {
    CopiedWeight(id, e, retry, slept);
  }

  lemma RepublishedWeight(s: Mesh, x: Slot)
    requires Enabled(s, Republish(x))
    ensures Sum(Copied(s, Republish(x)), SlotWeight) == CopiesWeight(TypeOf(x.copy.event), x.copy.retry + 1)
  {
    CopiedByRetry(s, x);
    var c, r := x.copy, x.copy.retry + 1;
    WeightOf(Copied(s, Republish(x)), c.id, c.event, r, c.slept + Backoff(r));
  }

  lemma RepublishPays(s: Mesh, x: Slot)
    requires Enabled(s, Republish(x))
    ensures Remains(s, Republish(x)) + 1 <= SlotWeight(x)
  {
    RepublishedWeight(s, x);
    FailedSlotPays(x);
  }

  lemma FailedSlotPays(x: Slot)
    requires x.place == Failed && x.copy.retry + 1 < MAX_RETRIES
    ensures SlotWeight(x) == 1 + SlotWeight(Slot(x.copy, Requeued)) + CopiesWeight(TypeOf(x.copy.event), x.copy.retry + 1)
  {
    FailurePays(TypeOf(x.copy.event), x.copy.retry);
  }

  lemma SlotPays(s: Mesh, a: Action)
    requires Enabled(s, a) && OnSlot(a) && !IsRedelivery(a)
    ensures Remains(s, a) + 1 <= SlotWeight(a.x)
  {
    match a
    case Commit(x, env) => CommitPays(s, x, env);
    case Publish(x) => PublishPays(s, x);
    case Republish(x) => RepublishPays(s, x);
    case Fetch(_) => assert Copied(s, a) == multiset{};
    case Ack(_) => assert Copied(s, a) == multiset{};
    case Fail(_) => assert Copied(s, a) == multiset{};
    case AckRetried(_) => assert Copied(s, a) == multiset{};
    case Reject(_) => assert Copied(s, a) == multiset{};
  }

  lemma SlotStepWork(s: Mesh, a: Action)
    requires Enabled(s, a) && OnSlot(a) && !IsRedelivery(a)
    ensures Work(Step(s, a)) + 1 <= Work(s)
  {
    SlotPays(s, a);
    SlotSum(s, a, SlotWeight);
    assert Step(s, a).tasks == s.tasks;
  }

  lemma TasksPay(s: Mesh, a: Action)
    requires Enabled(s, a) && !OnSlot(a) && !a.PublishTask?
    ensures Sum(Step(s, a).tasks, TaskWeight) + 1 <= Sum(s.tasks, TaskWeight) + Cost(a)
  {
    if a.WriteCancel? {
      CancelPays(s.tasks, Cancellation(s.world.orders, a.order));
    } else if a.Drop? {
      SumRemove(s.tasks, TaskWeight, a.task);
    } else {
      CommandPays(s, a);
    }
  }

  lemma CommandPays(s: Mesh, a: Action)
    requires Enabled(s, a) && IsCommand(a)
    ensures Sum(Step(s, a).tasks, TaskWeight) + 1 <= Sum(s.tasks, TaskWeight) + Cost(a)
  {
    if a.NewOrder? {
      SumAdd(s.tasks, TaskWeight, Announce(Placed(a.order, a.customer, a.lines)));
    } else if a.AskCancel? {
      SumAdd(s.tasks, TaskWeight, CancelWrite(a.order));
    } else if a.MarkShipment? && a.status == Arrived {
      var row := s.world.shipments[a.index];
      DeliveryPays(s.tasks, row.order, row.tracking);
    }
  }

  lemma DeliveryPays(tasks: multiset<Task>, o: int, tracking: string)
    ensures Sum(tasks + multiset{Announce(ShipmentDelivered(o, tracking))}, TaskWeight) ==
            Sum(tasks, TaskWeight) + 1 + NewsWeight(SHIPMENT_DELIVERED)
  {
    SumAdd(tasks, TaskWeight, Announce(ShipmentDelivered(o, tracking)));
  }

  lemma CancelPays(tasks: multiset<Task>, e: Event)
    requires e.OrderCancelled? && CancelWrite(e.order) in tasks
    ensures Sum(tasks - multiset{CancelWrite(e.order)} + multiset{Announce(e)}, TaskWeight) + 1 == Sum(tasks, TaskWeight)
  {
    SumReplace(tasks, TaskWeight, CancelWrite(e.order), Announce(e));
    assert TaskWeight(Announce(e)) + 1 == TaskWeight(CancelWrite(e.order));
  }

  lemma TaskStepWork(s: Mesh, a: Action)
    requires Enabled(s, a) && !OnSlot(a)
    ensures Work(Step(s, a)) + 1 <= Work(s) + Cost(a)
  {
    OtherSum(s, a, SlotWeight);
    if a.PublishTask? {
      SumRemove(s.tasks, TaskWeight, Announce(a.event));
      CopiedWeight(|s.published|, a.event, 0, 0);
    } else {
      TasksPay(s, a);
    }
  }

  /** Every step spends budget, wherever the run starts and whichever handlers fail. */
  lemma {:induction false} EveryRunIsFinite(s: Mesh, acts: seq<Action>)
    requires AllEnabled(s, acts) && forall a | a in acts :: !IsRedelivery(a)
    ensures |acts| + Work(Exec(s, acts)) <= Work(s) + TotalCost(acts)
  {
    if acts != [] {
      var init, a := acts[..|acts| - 1], acts[|acts| - 1];
      assert acts == init + [a];
      EveryRunIsFinite(s, init);
      if OnSlot(a) {
        SlotStepWork(Exec(s, init), a);
      } else {
        TaskStepWork(Exec(s, init), a);
      }
    }
  }

  // ----- the bound in numbers -----

  function CommandCount(acts: seq<Action>): nat {
    if acts == [] then 0
    else CommandCount(acts[..|acts| - 1]) + if IsCommand(acts[|acts| - 1]) then 1 else 0
  }

  lemma WeightsInNumbers()
    ensures NewsWeight(SHIPMENT_CREATED) == 76 && NewsWeight(STOCK_UNAVAILABLE) == 17
    ensures NewsWeight(STOCK_RESERVED) == 3171 && NewsWeight(ORDER_CREATED) == 44708
    ensures NewsWeight(ORDER_CANCELLED) == 17 && NewsWeight(SHIPMENT_DELIVERED) == 17
  {
    assert ReadyWeight(SHIPMENT_CREATED, 2) == 5 && ReadyWeight(SHIPMENT_CREATED, 1) == 16;
    assert ReadyWeight(SHIPMENT_DELIVERED, 2) == 5 && ReadyWeight(SHIPMENT_DELIVERED, 1) == 11;
    assert ReadyWeight(STOCK_UNAVAILABLE, 2) == 5 && ReadyWeight(STOCK_UNAVAILABLE, 1) == 11;
    assert NewsWeight(SHIPMENT_CREATED) == 2 * ReadyWeight(SHIPMENT_CREATED, 0);
    assert ReadyWeight(STOCK_RESERVED, 2) == 81 && ReadyWeight(STOCK_RESERVED, 1) == 325;
    assert ReadyWeight(STOCK_RESERVED, 0) == 1057;
    assert NewsWeight(STOCK_RELEASED) == 0;
    assert ReadyWeight(ORDER_CANCELLED, 2) == 5 && ReadyWeight(ORDER_CANCELLED, 1) == 11;
    assert ReadyWeight(ORDER_CREATED, 2) == 3193 && ReadyWeight(ORDER_CREATED, 1) == 9580;
    assert ReadyWeight(ORDER_CREATED, 0) == 22354;
  }

  lemma {:induction false} CostPerCommand(acts: seq<Action>)
    ensures TotalCost(acts) <= 44710 * CommandCount(acts)
  {
    if acts != [] {
      CostPerCommand(acts[..|acts| - 1]);
      WeightsInNumbers();
    }
  }

  /** From rest, n client commands can never lead to more than 44710 n steps of the whole mesh. */
  lemma StepsPerCommand(acts: seq<Action>)
    requires AllEnabled(QUIET, acts) && forall a | a in acts :: !IsRedelivery(a)
    ensures |acts| <= 44710 * CommandCount(acts)
  {
    EveryRunIsFinite(QUIET, acts);
    CostPerCommand(acts);
    assert Work(QUIET) == 0;
  }
}
