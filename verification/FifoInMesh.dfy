/**
 * The two run classes fit together: every failure-free FIFO run is, step for step, a run of the
 * at-least-once mesh without crashes, failures or redeliveries, with the same databases and events.
 */
module FifoInMesh {
  import opened Domain
  import opened Saga
  import opened Mesh
  import Fifo

  /** The publication ids of the queued events, queue by queue. */
  datatype Ids = Ids(order: seq<nat>, inventory: seq<nat>, shipping: seq<nat>, notification: seq<nat>)

  function QueueIds(ids: Ids, q: Queue): seq<nat> {
    match q
    case OrderQ => ids.order
    case InventoryQ => ids.inventory
    case ShippingQ => ids.shipping
    case NotificationQ => ids.notification
  }

  predicate Fits(qs: Fifo.Queues, ids: Ids) {
    forall q :: |QueueIds(ids, q)| == |Fifo.Content(qs, q)|
  }

  /** The ready slots a FIFO queue stands for. */
  function Lift(q: Queue, es: seq<Event>, ids: seq<nat>): multiset<Slot>
    requires |es| == |ids|
  {
    if es == [] then multiset{}
    else multiset{Slot(Copy(q, ids[0], es[0], 0, 0), Ready)} + Lift(q, es[1..], ids[1..])
  }

  function LiftOne(qs: Fifo.Queues, ids: Ids, q: Queue): multiset<Slot>
    requires Fits(qs, ids)
  {
    assert |QueueIds(ids, q)| == |Fifo.Content(qs, q)|;
    Lift(q, Fifo.Content(qs, q), QueueIds(ids, q))
  }

  function LiftAll(qs: Fifo.Queues, ids: Ids): multiset<Slot>
    requires Fits(qs, ids)
  {
    LiftOne(qs, ids, OrderQ) + LiftOne(qs, ids, InventoryQ) + LiftOne(qs, ids, ShippingQ) + LiftOne(qs, ids, NotificationQ)
  }

  predicate Embeds(f: Fifo.Plant, ids: Ids, m: Mesh) {
    && Fits(f.queues, ids)
    && m.world == f.world && m.published == f.published && m.tasks == multiset{}
    && m.slots == LiftAll(f.queues, ids)
  }

  lemma {:induction false} LiftAppend(q: Queue, es: seq<Event>, ids: seq<nat>, e: Event, id: nat)
    requires |es| == |ids|
    ensures Lift(q, es + [e], ids + [id]) == Lift(q, es, ids) + multiset{Slot(Copy(q, id, e, 0, 0), Ready)}
  {
    if es != [] {
      LiftAppend(q, es[1..], ids[1..], e, id);
      assert (es + [e])[1..] == es[1..] + [e] && (ids + [id])[1..] == ids[1..] + [id];
    }
  }

  // ----- publishing -----

  function Pushed(ids: seq<nat>, q: Queue, e: Event, id: nat): seq<nat> {
    if q in Bound(TypeOf(e)) then ids + [id] else ids
  }

  function PushIds(ids: Ids, e: Event, id: nat): Ids {
    Ids(Pushed(ids.order, OrderQ, e, id), Pushed(ids.inventory, InventoryQ, e, id),
        Pushed(ids.shipping, ShippingQ, e, id), Pushed(ids.notification, NotificationQ, e, id))
  }

  /** Queue `q`'s part of a publication. */
  function Share(q: Queue, e: Event, id: nat): multiset<Slot> {
    if q in Bound(TypeOf(e)) then multiset{Fresh(q, e, id)} else multiset{}
  }

  function Fresh(q: Queue, e: Event, id: nat): Slot {
    Slot(Copy(q, id, e, 0, 0), Ready)
  }

  predicate Distinct(qs: seq<Queue>) {
    forall i, j | 0 <= i < j < |qs| :: qs[i] != qs[j]
  }

  lemma {:induction false} CopiesCount(qs: seq<Queue>, id: nat, e: Event, x: Slot)
    requires Distinct(qs)
    ensures Copies(qs, id, e, 0, 0)[x] ==
            if x == Fresh(x.copy.queue, e, id) && x.copy.queue in qs then 1 else 0
  {
    if qs != [] {
      assert Distinct(qs[1..]) && qs == [qs[0]] + qs[1..];
      CopiesCount(qs[1..], id, e, x);
    }
  }

  function Shares(id: nat, e: Event): multiset<Slot> {
    Share(OrderQ, e, id) + Share(InventoryQ, e, id) + Share(ShippingQ, e, id) + Share(NotificationQ, e, id)
  }

  lemma ShareCount(q: Queue, id: nat, e: Event, x: Slot)
    ensures Share(q, e, id)[x] ==
            if q == x.copy.queue && x == Fresh(x.copy.queue, e, id) && x.copy.queue in Bound(TypeOf(e)) then 1 else 0
  {
  }

  lemma SharesCount(id: nat, e: Event, x: Slot)
    ensures Shares(id, e)[x] ==
            if x == Fresh(x.copy.queue, e, id) && x.copy.queue in Bound(TypeOf(e)) then 1 else 0
  {
    ShareCount(OrderQ, id, e, x);
    ShareCount(InventoryQ, id, e, x);
    ShareCount(ShippingQ, id, e, x);
    ShareCount(NotificationQ, id, e, x);
  }

  lemma BoundDistinct(t: EventType)
    ensures Distinct(Bound(t))
  {
  }

  lemma FanOutShares(id: nat, e: Event)
    ensures FanOut(id, e, 0, 0) == Shares(id, e)
  {
    BoundDistinct(TypeOf(e));
    var qs, shares := Bound(TypeOf(e)), Shares(id, e);
    forall x ensures Copies(qs, id, e, 0, 0)[x] == shares[x] {
      CopiesCount(qs, id, e, x);
      SharesCount(id, e, x);
    }
  }

  lemma PushOne(qs: Fifo.Queues, ids: Ids, e: Event, id: nat, q: Queue)
    requires Fits(qs, ids)
    ensures Fits(Fifo.Push(qs, e), PushIds(ids, e, id))
    ensures LiftOne(Fifo.Push(qs, e), PushIds(ids, e, id), q) == LiftOne(qs, ids, q) + Share(q, e, id)
  {
    PushFits(qs, ids, e, id);
    if q in Bound(TypeOf(e)) {
      LiftAppend(q, Fifo.Content(qs, q), QueueIds(ids, q), e, id);
    }
  }

  lemma PushFits(qs: Fifo.Queues, ids: Ids, e: Event, id: nat)
    requires Fits(qs, ids)
    ensures Fits(Fifo.Push(qs, e), PushIds(ids, e, id))
  {
    forall q ensures |QueueIds(PushIds(ids, e, id), q)| == |Fifo.Content(Fifo.Push(qs, e), q)| {
      assert |QueueIds(ids, q)| == |Fifo.Content(qs, q)|;
    }
  }

  lemma LiftPush(qs: Fifo.Queues, ids: Ids, e: Event, id: nat)
    requires Fits(qs, ids)
    ensures Fits(Fifo.Push(qs, e), PushIds(ids, e, id))
    ensures LiftAll(Fifo.Push(qs, e), PushIds(ids, e, id)) == LiftAll(qs, ids) + FanOut(id, e, 0, 0)
  {
    PushOne(qs, ids, e, id, OrderQ);
    PushOne(qs, ids, e, id, InventoryQ);
    PushOne(qs, ids, e, id, ShippingQ);
    PushOne(qs, ids, e, id, NotificationQ);
    FanOutShares(id, e);
  }

  lemma PublishEmbeds(f: Fifo.Plant, ids: Ids, m: Mesh, e: Event)
    requires Embeds(f, ids, m)
    ensures Embeds(Fifo.Publish(f, e), PushIds(ids, e, |f.published|), Post(m, e))
  {
    LiftPush(f.queues, ids, e, |f.published|);
  }

  // ----- handling the head of a queue -----

  function PopIds(ids: Ids, q: Queue): Ids
    requires QueueIds(ids, q) != []
  {
    match q
    case OrderQ => ids.(order := ids.order[1..])
    case InventoryQ => ids.(inventory := ids.inventory[1..])
    case ShippingQ => ids.(shipping := ids.shipping[1..])
    case NotificationQ => ids.(notification := ids.notification[1..])
  }

  function Head(f: Fifo.Plant, ids: Ids, q: Queue): Copy
    requires Fits(f.queues, ids) && Fifo.Content(f.queues, q) != []
  {
    assert |QueueIds(ids, q)| == |Fifo.Content(f.queues, q)|;
    Copy(q, QueueIds(ids, q)[0], Fifo.Content(f.queues, q)[0], 0, 0)
  }

  lemma PopFits(qs: Fifo.Queues, ids: Ids, q: Queue)
    requires Fits(qs, ids) && Fifo.Content(qs, q) != []
    ensures QueueIds(ids, q) != [] && Fits(Fifo.Pop(qs, q), PopIds(ids, q))
  {
    assert |QueueIds(ids, q)| == |Fifo.Content(qs, q)|;
    forall q' ensures |QueueIds(PopIds(ids, q), q')| == |Fifo.Content(Fifo.Pop(qs, q), q')| {
      assert |QueueIds(ids, q')| == |Fifo.Content(qs, q')|;
    }
  }

  lemma PopOne(f: Fifo.Plant, ids: Ids, q: Queue, q': Queue)
    requires Fits(f.queues, ids) && Fifo.Content(f.queues, q) != []
    requires QueueIds(ids, q) != [] && Fits(Fifo.Pop(f.queues, q), PopIds(ids, q))
    ensures LiftOne(f.queues, ids, q') ==
            LiftOne(Fifo.Pop(f.queues, q), PopIds(ids, q), q') + HeadShare(f, ids, q, q')
  {
    if q' == q {
      PopOwn(f, ids, q);
    } else {
      assert Fifo.Content(Fifo.Pop(f.queues, q), q') == Fifo.Content(f.queues, q');
      assert QueueIds(PopIds(ids, q), q') == QueueIds(ids, q');
    }
  }

  lemma PopOwn(f: Fifo.Plant, ids: Ids, q: Queue)
    requires Fits(f.queues, ids) && Fifo.Content(f.queues, q) != []
    requires QueueIds(ids, q) != [] && Fits(Fifo.Pop(f.queues, q), PopIds(ids, q))
    ensures LiftOne(f.queues, ids, q) ==
            LiftOne(Fifo.Pop(f.queues, q), PopIds(ids, q), q) + multiset{Slot(Head(f, ids, q), Ready)}
  {
    assert Fifo.Content(Fifo.Pop(f.queues, q), q) == Fifo.Content(f.queues, q)[1..];
    assert QueueIds(PopIds(ids, q), q) == QueueIds(ids, q)[1..];
  }

  /** Queue `q'`'s part of the head of `q`. */
  function HeadShare(f: Fifo.Plant, ids: Ids, q: Queue, q': Queue): multiset<Slot>
    requires Fits(f.queues, ids) && Fifo.Content(f.queues, q) != []
  {
    if q' == q then multiset{Slot(Head(f, ids, q), Ready)} else multiset{}
  }

  lemma HeadShares(f: Fifo.Plant, ids: Ids, q: Queue)
    requires Fits(f.queues, ids) && Fifo.Content(f.queues, q) != []
    ensures HeadShare(f, ids, q, OrderQ) + HeadShare(f, ids, q, InventoryQ) +
            HeadShare(f, ids, q, ShippingQ) + HeadShare(f, ids, q, NotificationQ) ==
            multiset{Slot(Head(f, ids, q), Ready)}
  {
  }

  lemma LiftPop(f: Fifo.Plant, ids: Ids, q: Queue)
    requires Fits(f.queues, ids) && Fifo.Content(f.queues, q) != []
    ensures QueueIds(ids, q) != [] && Fits(Fifo.Pop(f.queues, q), PopIds(ids, q))
    ensures LiftAll(f.queues, ids) ==
            LiftAll(Fifo.Pop(f.queues, q), PopIds(ids, q)) + multiset{Slot(Head(f, ids, q), Ready)}
  {
    PopFits(f.queues, ids, q);
    PopOne(f, ids, q, OrderQ);
    PopOne(f, ids, q, InventoryQ);
    PopOne(f, ids, q, ShippingQ);
    PopOne(f, ids, q, NotificationQ);
    HeadShares(f, ids, q);
  }

  /** Nothing goes wrong in these steps. */
  predicate Smoothly(a: Action) {
    !a.Crash? && !a.Redeliver? && !a.Fail? && !a.Drop?
  }

  predicate SmoothBy(m0: Mesh, acts: seq<Action>, m1: Mesh) {
    Ran(m0, acts, m1) && forall a | a in acts :: Smoothly(a)
  }

  ghost predicate SmoothRun(m0: Mesh, m1: Mesh) {
    exists acts :: SmoothBy(m0, acts, m1)
  }

  lemma SmoothNone(m: Mesh)
    ensures SmoothRun(m, m)
  {
    assert SmoothBy(m, [], m);
  }

  lemma SmoothThen(m0: Mesh, m1: Mesh, a: Action)
    requires SmoothRun(m0, m1) && Enabled(m1, a) && Smoothly(a)
    ensures SmoothRun(m0, Step(m1, a))
  {
    var acts :| SmoothBy(m0, acts, m1);
    SmoothOneMore(m0, acts, m1, a);
  }

  lemma SmoothOneMore(m0: Mesh, acts: seq<Action>, m1: Mesh, a: Action)
    requires SmoothBy(m0, acts, m1) && Enabled(m1, a) && Smoothly(a)
    ensures SmoothBy(m0, acts + [a], Step(m1, a))
  {
    OneMore(m0, acts, a);
  }

  /** Where the mesh is after a copy was fetched and its transaction committed. */
  function Taking(m: Mesh, c: Copy, env: Env): Mesh
    requires Slot(c, Ready) in m.slots && FreshId(m.world.shipments, env.id)
  {
    var m1 := Step(m, Fetch(Slot(c, Ready)));
    assert Slot(c, Taken) in m1.slots;
    Step(m1, Commit(Slot(c, Taken), env))
  }

  lemma TakingSlots(m: Mesh, c: Copy, env: Env)
    requires Slot(c, Ready) in m.slots && FreshId(m.world.shipments, env.id)
    ensures var r := Handle(c.queue, c.event, m.world, env);
            var m2 := Taking(m, c, env);
            && m2.world == r.world && m2.published == m.published && m2.tasks == m.tasks
            && m2.slots == m.slots - multiset{Slot(c, Ready)} + multiset{Slot(c, Committed(r.out))}
    ensures SmoothRun(m, Taking(m, c, env))
  {
    var m1 := Step(m, Fetch(Slot(c, Ready)));
    assert Slot(c, Taken) in m1.slots;
    SmoothNone(m);
    SmoothThen(m, m, Fetch(Slot(c, Ready)));
    SmoothThen(m, m1, Commit(Slot(c, Taken), env));
    assert m1.slots - multiset{Slot(c, Taken)} == m.slots - multiset{Slot(c, Ready)};
  }

  /** Publishing, if there is something to publish, and acknowledging. */
  function Finishing(m: Mesh, c: Copy, out: Option<Event>): Mesh
    requires Slot(c, Committed(out)) in m.slots
  {
    if out.None? then Step(m, Ack(Slot(c, Committed(None))))
    else
      var m1 := Step(m, Publish(Slot(c, Committed(out))));
      assert Slot(c, Announced) in m1.slots;
      Step(m1, Ack(Slot(c, Announced)))
  }

  lemma AnnouncedIsPosted(m: Mesh, c: Copy, e: Event, rest: multiset<Slot>)
    requires m.slots == rest + multiset{Slot(c, Committed(Some(e)))}
    ensures var m2, quiet := Finishing(m, c, Some(e)), Post(m.(slots := rest), e);
            m2.world == quiet.world && m2.tasks == quiet.tasks && m2.slots == quiet.slots && m2.published == quiet.published
  {
    AnnouncedSlots(m, c, e, rest);
  }

  lemma FinishingSlots(m0: Mesh, m: Mesh, c: Copy, out: Option<Event>, rest: multiset<Slot>)
    requires SmoothRun(m0, m) && m.slots == rest + multiset{Slot(c, Committed(out))}
    ensures var m2 := Finishing(m, c, out);
            var quiet := if out.None? then m.(slots := rest) else Post(m.(slots := rest), out.value);
            m2.world == quiet.world && m2.tasks == quiet.tasks && m2.slots == quiet.slots && m2.published == quiet.published
    ensures SmoothRun(m0, Finishing(m, c, out))
  {
    if out.None? {
      SmoothThen(m0, m, Ack(Slot(c, Committed(None))));
    } else {
      AnnouncedIsPosted(m, c, out.value, rest);
      AnnounceAndAck(m0, m, c, out.value);
    }
  }

  lemma AnnounceAndAck(m0: Mesh, m: Mesh, c: Copy, e: Event)
    requires SmoothRun(m0, m) && Slot(c, Committed(Some(e))) in m.slots
    ensures SmoothRun(m0, Finishing(m, c, Some(e)))
  {
    var m1 := Step(m, Publish(Slot(c, Committed(Some(e)))));
    SmoothThen(m0, m, Publish(Slot(c, Committed(Some(e)))));
    assert Slot(c, Announced) in m1.slots;
    SmoothThen(m0, m1, Ack(Slot(c, Announced)));
  }

  lemma AnnouncedSlots(m: Mesh, c: Copy, e: Event, rest: multiset<Slot>)
    requires m.slots == rest + multiset{Slot(c, Committed(Some(e)))}
    ensures Step(m, Publish(Slot(c, Committed(Some(e))))).slots ==
            rest + FanOut(|m.published|, e, 0, 0) + multiset{Slot(c, Announced)}
  {
  }

  /** The mesh after the head of a queue was fetched and committed, and the FIFO machine after it was popped. */
  lemma TakeEmbeds(f: Fifo.Plant, ids: Ids, m0: Mesh, q: Queue, env: Env) returns (m2: Mesh, c: Copy, rest: multiset<Slot>)
    requires Embeds(f, ids, m0) && Fifo.Enabled(f, Fifo.Work(q, env))
    ensures var r := Fifo.Handled(f, q, env);
            && QueueIds(ids, q) != [] && SmoothRun(m0, m2)
            && m2.slots == rest + multiset{Slot(c, Committed(r.out))}
            && Embeds(f.(world := r.world, queues := Fifo.Pop(f.queues, q)), PopIds(ids, q), m2.(slots := rest))
  {
    c := Head(f, ids, q);
    LiftPop(f, ids, q);
    rest := LiftAll(Fifo.Pop(f.queues, q), PopIds(ids, q));
    TakingSlots(m0, c, env);
    m2 := Taking(m0, c, env);
    assert m0.slots - multiset{Slot(c, Ready)} == rest;
  }

  lemma WorkEmbeds(f: Fifo.Plant, ids: Ids, m0: Mesh, q: Queue, env: Env)
    requires Embeds(f, ids, m0) && Fifo.Enabled(f, Fifo.Work(q, env))
    ensures Matched(Fifo.Step(f, Fifo.Work(q, env)), m0)
  {
    var m2, c, rest := TakeEmbeds(f, ids, m0, q, env);
    var r := Fifo.Handled(f, q, env);
    var f1 := f.(world := r.world, queues := Fifo.Pop(f.queues, q));
    FinishEmbeds(f1, PopIds(ids, q), m0, m2, c, r.out, rest);
  }

  /** After the commit, announcing and acknowledging in the mesh is publishing in the FIFO machine. */
  lemma FinishEmbeds(f: Fifo.Plant, ids: Ids, m0: Mesh, m: Mesh, c: Copy, out: Option<Event>, rest: multiset<Slot>)
    requires SmoothRun(m0, m) && m.slots == rest + multiset{Slot(c, Committed(out))}
    requires Embeds(f, ids, m.(slots := rest))
    ensures Matched(if out.Some? then Fifo.Publish(f, out.value) else f, m0)
  {
    FinishingSlots(m0, m, c, out, rest);
    if out.Some? {
      PublishEmbeds(f, ids, m.(slots := rest), out.value);
      Matches(Fifo.Publish(f, out.value), PushIds(ids, out.value, |f.published|), m0, Finishing(m, c, out));
    } else {
      Matches(f, ids, m0, Finishing(m, c, out));
    }
  }

  // ----- client requests -----

  /** Some trouble-free run from `m0` leads to a mesh that looks like `f`. */
  ghost predicate Matched(f: Fifo.Plant, m0: Mesh) {
    exists ids, m :: SmoothRun(m0, m) && Embeds(f, ids, m)
  }

  lemma Matches(f: Fifo.Plant, ids: Ids, m0: Mesh, m: Mesh)
    requires SmoothRun(m0, m) && Embeds(f, ids, m)
    ensures Matched(f, m0)
  {
  }

  /** A request whose last step publishes its one task. */
  lemma RequestEmbeds(f: Fifo.Plant, ids: Ids, m0: Mesh, m: Mesh, e: Event)
    requires SmoothRun(m0, m) && m.tasks == multiset{Announce(e)} && Embeds(f, ids, m.(tasks := multiset{}))
    ensures Matched(Fifo.Publish(f, e), m0)
  {
    var quiet := m.(tasks := multiset{});
    SmoothThen(m0, m, PublishTask(e));
    assert m.tasks - multiset{Announce(e)} == multiset{};
    assert Step(m, PublishTask(e)) == Post(quiet, e);
    PublishEmbeds(f, ids, quiet, e);
    Matches(Fifo.Publish(f, e), PushIds(ids, e, |f.published|), m0, Post(quiet, e));
  }

  lemma OrderEmbeds(f: Fifo.Plant, ids: Ids, m0: Mesh, o: int, customer: int, lines: seq<Line>)
    requires Embeds(f, ids, m0) && Fifo.Enabled(f, Fifo.NewOrder(o, customer, lines))
    ensures Matched(Fifo.Step(f, Fifo.NewOrder(o, customer, lines)), m0)
  {
    SmoothNone(m0);
    SmoothThen(m0, m0, NewOrder(o, customer, lines));
    RequestEmbeds(f.(world := AddOrder(f.world, o, customer, lines)), ids, m0, Step(m0, NewOrder(o, customer, lines)),
                  Placed(o, customer, lines));
  }

  lemma CancelEmbeds(f: Fifo.Plant, ids: Ids, m0: Mesh, o: int)
    requires Embeds(f, ids, m0) && Fifo.Enabled(f, Fifo.Cancel(o))
    ensures Matched(Fifo.Step(f, Fifo.Cancel(o)), m0)
  {
    var m1 := Step(m0, AskCancel(o));
    SmoothNone(m0);
    SmoothThen(m0, m0, AskCancel(o));
    SmoothThen(m0, m1, WriteCancel(o));
    var f1 := f.(world := f.world.(orders := SetStatus(f.world.orders, o, Cancelled)), cancelled := f.cancelled + {o});
    RequestEmbeds(f1, ids, m0, Step(m1, WriteCancel(o)), Cancellation(f.world.orders, o));
  }

  lemma MarkEmbeds(f: Fifo.Plant, ids: Ids, m0: Mesh, i: nat, status: ShipmentStatus)
    requires Embeds(f, ids, m0) && Fifo.Enabled(f, Fifo.Mark(i, status))
    ensures Matched(Fifo.Step(f, Fifo.Mark(i, status)), m0)
  {
    var m1 := Step(m0, MarkShipment(i, status));
    var f1 := f.(world := MarkRow(f.world, i, status));
    SmoothNone(m0);
    SmoothThen(m0, m0, MarkShipment(i, status));
    if status == Arrived {
      RequestEmbeds(f1, ids, m0, m1, Arrival(f.world.shipments[i]));
    } else {
      Matches(f1, ids, m0, m1);
    }
  }

  lemma StepEmbeds(f: Fifo.Plant, ids: Ids, m0: Mesh, a: Fifo.Action)
    requires Embeds(f, ids, m0) && Fifo.Enabled(f, a)
    ensures Matched(Fifo.Step(f, a), m0)
  {
    match a
    case NewProduct(p, q) =>
      SmoothNone(m0);
      SmoothThen(m0, m0, NewProduct(p, q));
      Matches(Fifo.Step(f, a), ids, m0, Step(m0, NewProduct(p, q)));
    case NewOrder(o, customer, lines) => OrderEmbeds(f, ids, m0, o, customer, lines);
    case Cancel(o) => CancelEmbeds(f, ids, m0, o);
    case Mark(i, status) => MarkEmbeds(f, ids, m0, i, status);
    case Work(q, env) => WorkEmbeds(f, ids, m0, q, env);
  }

  lemma SmoothJoin(m0: Mesh, m1: Mesh, m2: Mesh)
    requires SmoothRun(m0, m1) && SmoothRun(m1, m2)
    ensures SmoothRun(m0, m2)
  {
    var first, second :| SmoothBy(m0, first, m1) && SmoothBy(m1, second, m2);
    RanThen(m0, first, m1, second, m2);
    assert SmoothBy(m0, first + second, m2);
  }

  lemma MatchedLater(f: Fifo.Plant, m0: Mesh, m: Mesh)
    requires SmoothRun(m0, m) && Matched(f, m)
    ensures Matched(f, m0)
  {
    var ids, m1 :| SmoothRun(m, m1) && Embeds(f, ids, m1);
    SmoothJoin(m0, m, m1);
  }

  lemma {:induction false} RunMatched(f: Fifo.Plant, m0: Mesh, acts: seq<Fifo.Action>)
    requires Matched(f, m0)
    ensures Matched(Fifo.Exec(f, acts), m0)
  {
    if acts != [] {
      var init, a := acts[..|acts| - 1], acts[|acts| - 1];
      RunMatched(f, m0, init);
      MatchedNext(Fifo.Exec(f, init), m0, a);
    }
  }

  lemma IdleMatched()
    ensures Matched(Fifo.IDLE, QUIET)
  {
    SmoothNone(QUIET);
    Matches(Fifo.IDLE, Ids([], [], [], []), QUIET, QUIET);
  }

  lemma MatchedNext(f: Fifo.Plant, m0: Mesh, a: Fifo.Action)
    requires Matched(f, m0)
    ensures Matched(Fifo.Apply(f, a), m0)
  {
    if Fifo.Enabled(f, a) {
      var ids, m :| SmoothRun(m0, m) && Embeds(f, ids, m);
      StepEmbeds(f, ids, m, a);
      MatchedLater(Fifo.Step(f, a), m0, m);
    }
  }

  lemma RestIsEmpty(f: Fifo.Plant, ids: Ids, m: Mesh)
    requires Embeds(f, ids, m) && Fifo.AtRest(f)
    ensures m.slots == multiset{}
  {
    forall q ensures LiftOne(f.queues, ids, q) == multiset{} {
    }
  }

  /** The mesh run of some FIFO run: same databases, same events, and quiet exactly when it should be. */
  ghost predicate Mirrors(steps: seq<Action>, f: Fifo.Plant) {
    var m := Exec(QUIET, steps);
    && AllEnabled(QUIET, steps) && (forall a | a in steps :: Smoothly(a))
    && m.world == f.world && m.published == f.published
    && (Fifo.AtRest(f) ==> m.slots == multiset{} && m.tasks == multiset{})
  }

  /** Every FIFO run is a trouble-free mesh run; at rest, that run has no message left anywhere either. */
  lemma FifoRunIsMeshRun(acts: seq<Fifo.Action>)
    ensures exists steps :: Mirrors(steps, Fifo.Exec(Fifo.IDLE, acts))
  {
    IdleMatched();
    RunMatched(Fifo.IDLE, QUIET, acts);
    var f := Fifo.Exec(Fifo.IDLE, acts);
    var ids, m :| SmoothRun(QUIET, m) && Embeds(f, ids, m);
    var steps :| SmoothBy(QUIET, steps, m);
    if Fifo.AtRest(f) {
      RestIsEmpty(f, ids, m);
    }
    assert Mirrors(steps, f);
  }
}
