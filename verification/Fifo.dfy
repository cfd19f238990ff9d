/**
 * Failure-free runs: every queue is processed in order, every handler and request is atomic.
 * Clients may create products, place orders, cancel them and update shipments at any time.
 */
module Fifo {
  import opened Domain
  import opened Allocation
  import opened Saga
  import opened SagaInvariant
  import opened Runs

  datatype Queues = Queues(order: seq<Event>, inventory: seq<Event>, shipping: seq<Event>, notification: seq<Event>)

  /** `published` and `cancelled` (orders some client cancelled) are history. */
  datatype Plant = Plant(world: World, queues: Queues, published: seq<Event>, cancelled: set<int>)

  const IDLE := Plant(NOTHING, Queues([], [], [], []), [], {})

  datatype Action =
    | NewProduct(product: int, quantity: int)
    | NewOrder(order: int, customer: int, lines: seq<Line>)
    | Cancel(order: int)
    | Mark(index: nat, status: ShipmentStatus)
    | Work(queue: Queue, env: Env)

  function Content(qs: Queues, q: Queue): seq<Event> {
    match q
    case OrderQ => qs.order
    case InventoryQ => qs.inventory
    case ShippingQ => qs.shipping
    case NotificationQ => qs.notification
  }

  function Pop(qs: Queues, q: Queue): Queues
    requires Content(qs, q) != []
  {
    match q
    case OrderQ => qs.(order := qs.order[1..])
    case InventoryQ => qs.(inventory := qs.inventory[1..])
    case ShippingQ => qs.(shipping := qs.shipping[1..])
    case NotificationQ => qs.(notification := qs.notification[1..])
  }

  function Appended(es: seq<Event>, q: Queue, e: Event): seq<Event> {
    if q in Bound(TypeOf(e)) then es + [e] else es
  }

  function Push(qs: Queues, e: Event): Queues {
    Queues(Appended(qs.order, OrderQ, e), Appended(qs.inventory, InventoryQ, e),
           Appended(qs.shipping, ShippingQ, e), Appended(qs.notification, NotificationQ, e))
  }

  function Publish(f: Plant, e: Event): Plant {
    f.(queues := Push(f.queues, e), published := f.published + [e])
  }

  predicate Enabled(f: Plant, a: Action) {
    match a
    case NewProduct(p, q) => p !in f.world.created && 0 <= q
    case NewOrder(o, _, lines) => o !in f.world.orders && ValidLines(lines)
    case Cancel(o) => Cancellable(f.world.orders, o)
    case Mark(i, _) => i < |f.world.shipments|
    case Work(q, env) => Content(f.queues, q) != [] && FreshId(f.world.shipments, env.id)
  }

  function Handled(f: Plant, q: Queue, env: Env): Effect
    requires Content(f.queues, q) != []
  {
    Handle(q, Content(f.queues, q)[0], f.world, env)
  }

  function Step(f: Plant, a: Action): Plant
    requires Enabled(f, a)
  {
    match a
    case NewProduct(p, q) => f.(world := AddProduct(f.world, p, q))
    case NewOrder(o, customer, lines) =>
      Publish(f.(world := AddOrder(f.world, o, customer, lines)), Placed(o, customer, lines))
    case Cancel(o) =>
      Publish(f.(world := f.world.(orders := SetStatus(f.world.orders, o, Cancelled)), cancelled := f.cancelled + {o}),
              Cancellation(f.world.orders, o))
    case Mark(i, status) =>
      var f1 := f.(world := MarkRow(f.world, i, status));
      if status == Arrived then Publish(f1, Arrival(f.world.shipments[i])) else f1
    case Work(q, env) =>
      var r := Handled(f, q, env);
      var f1 := f.(world := r.world, queues := Pop(f.queues, q));
      if r.out.Some? then Publish(f1, r.out.value) else f1
  }

  function Apply(f: Plant, a: Action): Plant {
    if Enabled(f, a) then Step(f, a) else f
  }

  function Exec(f: Plant, acts: seq<Action>): Plant {
    Fold(Apply, f, acts)
  }

  predicate AtRest(f: Plant) {
    f.queues == Queues([], [], [], [])
  }

  // ----- what one order looks like from outside -----

  /** The types of the events about `o`, in queue order. */
  function Trail(es: seq<Event>, o: int): seq<EventType> {
    if es == [] then []
    else if es[0].order == o then [TypeOf(es[0])] + Trail(es[1..], o)
    else Trail(es[1..], o)
  }

  datatype View = View(
    order: seq<EventType>, inventory: seq<EventType>, shipping: seq<EventType>,
    status: Option<Status>, held: bool, shipped: bool)

  function Look(f: Plant, o: int): View {
    View(Trail(f.queues.order, o), Trail(f.queues.inventory, o), Trail(f.queues.shipping, o),
         if o in f.world.orders then Some(f.world.orders[o].status) else None,
         o in f.world.stock.held, HasShipment(f.world.shipments, o))
  }

  const UNKNOWN := View([], [], [], None, false, false)

  /** The life of an order no client cancelled: waiting, refused, reserved, shipped. */
  predicate OnCourse(v: View) {
    || (v.inventory == [ORDER_CREATED] && v.order == [] && v.shipping == [] && v.status == Some(Pending)
        && !v.held && !v.shipped)
    || (v.inventory == [] && v.shipping == [] && !v.held && !v.shipped
        && ((v.order == [STOCK_UNAVAILABLE] && v.status == Some(Pending)) || (v.order == [] && v.status == Some(Cancelled))))
    || (v.inventory == [] && v.shipping == [STOCK_RESERVED] && v.held && !v.shipped
        && ((v.order == [STOCK_RESERVED] && v.status == Some(Pending)) || (v.order == [] && v.status == Some(Confirmed))))
    || (v.inventory == [] && v.shipping == [] && v.held && v.shipped
        && ((v.order == [STOCK_RESERVED, SHIPMENT_CREATED] && v.status == Some(Pending))
            || (v.order == [SHIPMENT_CREATED] && v.status == Some(Confirmed))
            || (v.order == [] && v.status == Some(Shipped))))
  }

  /** After a cancellation: the claim, if still queued, is first, and a release is still queued behind it. */
  predicate WindingDown(v: View) {
    && v.status.Some?
    && (forall i | 1 <= i < |v.inventory| :: v.inventory[i] == ORDER_CANCELLED)
    && (v.inventory != [] ==> v.inventory[0] in {ORDER_CREATED, ORDER_CANCELLED})
    && (v.inventory != [] ==> v.inventory[|v.inventory| - 1] == ORDER_CANCELLED)
    && (v.inventory == [] ==> !v.held)
  }

  predicate ViewOk(f: Plant, o: int) {
    if o !in f.world.orders then Look(f, o) == UNKNOWN && o !in f.cancelled
    else if o in f.cancelled then WindingDown(Look(f, o))
    else OnCourse(Look(f, o))
  }

  ghost predicate Inv(f: Plant) {
    && WorldOk(f.world, f.published)
    && (forall e | e in f.published :: Justified(f.world, f.published, e))
    && (forall q, e | e in Content(f.queues, q) :: e in f.published)
    && (forall o :: ViewOk(f, o))
  }

  lemma {:induction false} TrailAppend(es: seq<Event>, e: Event, o: int)
    ensures Trail(es + [e], o) == if e.order == o then Trail(es, o) + [TypeOf(e)] else Trail(es, o)
  {
    if es != [] {
      TrailAppend(es[1..], e, o);
      assert (es + [e])[1..] == es[1..] + [e];
    }
  }

  /** What publishing `e` does to the view of `o`. */
  function Heard(v: View, t: EventType): View {
    View(if OrderQ in Bound(t) then v.order + [t] else v.order,
         if InventoryQ in Bound(t) then v.inventory + [t] else v.inventory,
         if ShippingQ in Bound(t) then v.shipping + [t] else v.shipping,
         v.status, v.held, v.shipped)
  }

  lemma LookAfterPublish(f: Plant, e: Event, o: int)
    ensures Look(Publish(f, e), o) == if e.order == o then Heard(Look(f, o), TypeOf(e)) else Look(f, o)
  {
    TrailAppend(f.queues.order, e, o);
    TrailAppend(f.queues.inventory, e, o);
    TrailAppend(f.queues.shipping, e, o);
  }

  // ----- one handled event, seen on the view of its order -----

  function Popped(v: View, q: Queue): View {
    match q
    case OrderQ => if v.order == [] then v else v.(order := v.order[1..])
    case InventoryQ => if v.inventory == [] then v else v.(inventory := v.inventory[1..])
    case ShippingQ => if v.shipping == [] then v else v.(shipping := v.shipping[1..])
    case NotificationQ => v
  }

  lemma LookAfterPop(f: Plant, q: Queue, o: int)
    requires Content(f.queues, q) != []
    ensures var f1 := f.(queues := Pop(f.queues, q));
            Look(f1, o) == if Content(f.queues, q)[0].order == o then Popped(Look(f, o), q) else Look(f, o)
  {
  }

  /** A handler touches only the databases' view of the order its event names. */
  lemma HandlerIsLocal(q: Queue, e: Event, w: World, env: Env, o: int)
    requires o != e.order
    ensures var w1 := Handle(q, e, w, env).world;
            && (o in w1.orders <==> o in w.orders)
            && (o in w.orders ==> w1.orders[o] == w.orders[o])
            && (o in w1.stock.held <==> o in w.stock.held)
            && (HasShipment(w1.shipments, o) <==> HasShipment(w.shipments, o))
    ensures Handle(q, e, w, env).out.Some? ==> Handle(q, e, w, env).out.value.order == e.order
  {
  }

  lemma OthersKeepView(f: Plant, q: Queue, env: Env, o: int)
    requires Enabled(f, Work(q, env)) && o != Content(f.queues, q)[0].order
    ensures Look(Step(f, Work(q, env)), o) == Look(f, o)
  {
    var e, r := Content(f.queues, q)[0], Handled(f, q, env);
    var f1 := f.(world := r.world, queues := Pop(f.queues, q));
    HandlerIsLocal(q, e, f.world, env, o);
    LookAfterPop(f, q, o);
    if r.out.Some? {
      LookAfterPublish(f1, r.out.value, o);
    }
  }

  function Seen(v: View, w: World, o: int): View {
    v.(status := if o in w.orders then Some(w.orders[o].status) else None,
       held := o in w.stock.held, shipped := HasShipment(w.shipments, o))
  }

  /** The view of the handled order: popped, with the new facts, having heard the announcement. */
  function Worked(f: Plant, q: Queue, env: Env): View
    requires Content(f.queues, q) != []
  {
    var o, r := Content(f.queues, q)[0].order, Handled(f, q, env);
    var v1 := Seen(Popped(Look(f, o), q), r.world, o);
    if r.out.Some? then Heard(v1, TypeOf(r.out.value)) else v1
  }

  lemma OwnView(f: Plant, q: Queue, env: Env)
    requires Enabled(f, Work(q, env))
    ensures Look(Step(f, Work(q, env)), Content(f.queues, q)[0].order) == Worked(f, q, env)
  {
    var e, r := Content(f.queues, q)[0], Handled(f, q, env);
    var f1 := f.(world := r.world, queues := Pop(f.queues, q));
    LookAfterPop(f, q, e.order);
    if r.out.Some? {
      LookAfterPublish(f1, r.out.value, e.order);
      assert r.out.value.order == e.order;
    }
  }

  lemma FirstOfTrail(f: Plant, q: Queue)
    requires Content(f.queues, q) != []
    ensures Trail(Content(f.queues, q), Content(f.queues, q)[0].order) != []
    ensures Trail(Content(f.queues, q), Content(f.queues, q)[0].order)[0] == TypeOf(Content(f.queues, q)[0])
  {
  }

  predicate InLife(f: Plant, o: int, v: View) {
    if o in f.cancelled then WindingDown(v) else OnCourse(v)
  }

  /** The claim was decided. */
  function Claimed(v: View, ok: bool): View {
    Heard(Popped(v, InventoryQ).(held := v.held || ok), if ok then STOCK_RESERVED else STOCK_UNAVAILABLE)
  }

  lemma ClaimedInLife(v: View, ok: bool)
    requires v.inventory != [] && v.inventory[0] == ORDER_CREATED
    ensures OnCourse(v) ==> OnCourse(Claimed(v, ok))
    ensures WindingDown(v) ==> WindingDown(Claimed(v, ok))
  {
  }

  lemma FreedInLife(v: View)
    requires v.inventory != [] && v.inventory[0] == ORDER_CANCELLED
    ensures !OnCourse(v)
    ensures WindingDown(v) ==> WindingDown(Popped(v, InventoryQ).(held := false))
  {
  }

  lemma ClaimFacts(w: World, o: int, items: seq<Item>)
    requires Wanted(items) != map[]
    ensures var ok := Reserve(w.stock, o, items).ok;
            && (o in OnOrderCreated(w, o, items).world.stock.held <==> o in w.stock.held || ok)
            && OnOrderCreated(w, o, items).out == Some(if ok then StockReserved(o, items) else StockUnavailable(o))
            && OnOrderCreated(w, o, items).world.orders == w.orders
            && OnOrderCreated(w, o, items).world.shipments == w.shipments
  {
  }

  /** What a decided claim shows of its own order, whatever is queued. */
  lemma ClaimSeen(v: View, w: World, o: int, items: seq<Item>)
    requires Wanted(items) != map[] && Seen(v, w, o) == v
    ensures Seen(v, OnOrderCreated(w, o, items).world, o) == v.(held := v.held || Reserve(w.stock, o, items).ok)
  {
    ClaimFacts(w, o, items);
  }

  lemma PoppedIsSeen(f: Plant, q: Queue, o: int)
    ensures Seen(Popped(Look(f, o), q), f.world, o) == Popped(Look(f, o), q)
  {
  }

  lemma WorkedClaim(f: Plant, env: Env)
    requires Enabled(f, Work(InventoryQ, env)) && f.queues.inventory[0].OrderCreated?
    requires Wanted(f.queues.inventory[0].items) != map[]
    ensures var e := f.queues.inventory[0];
            Worked(f, InventoryQ, env) ==
            Claimed(Look(f, e.order), Reserve(f.world.stock, e.order, e.items).ok)
  {
    var e := f.queues.inventory[0];
    ClaimFacts(f.world, e.order, e.items);
    assert Handled(f, InventoryQ, env) == OnOrderCreated(f.world, e.order, e.items);
    PoppedIsSeen(f, InventoryQ, e.order);
    ClaimSeen(Popped(Look(f, e.order), InventoryQ), f.world, e.order, e.items);
  }

  lemma QueuedClaimIsReal(f: Plant)
    requires Inv(f) && f.queues.inventory != [] && f.queues.inventory[0].OrderCreated?
    ensures Wanted(f.queues.inventory[0].items) != map[]
  {
    var e := f.queues.inventory[0];
    QueuedOrderExists(f, InventoryQ);
    assert OrderOk(f.world, e.order);
    PayloadPositive(f.world.orders[e.order].lines);
  }

  lemma WorkedFree(f: Plant, env: Env)
    requires Enabled(f, Work(InventoryQ, env)) && f.queues.inventory[0].OrderCancelled?
    ensures Worked(f, InventoryQ, env) == Popped(Look(f, f.queues.inventory[0].order), InventoryQ).(held := false)
  {
  }

  lemma InventoryWork(f: Plant, env: Env)
    requires Inv(f) && Enabled(f, Work(InventoryQ, env))
    requires var o := f.queues.inventory[0].order; o in f.world.orders && InLife(f, o, Look(f, o))
    ensures InLife(f, f.queues.inventory[0].order, Worked(f, InventoryQ, env))
  {
    var e := f.queues.inventory[0];
    FirstOfTrail(f, InventoryQ);
    if e.OrderCreated? {
      QueuedClaimIsReal(f);
      WorkedClaim(f, env);
      ClaimedInLife(Look(f, e.order), Reserve(f.world.stock, e.order, e.items).ok);
    } else if e.OrderCancelled? {
      WorkedFree(f, env);
      FreedInLife(Look(f, e.order));
    }
  }

  /** The status the order service gives for an event of this type. */
  function StatusFor(t: EventType): Option<Status> {
    match t
    case STOCK_RESERVED => Some(Confirmed)
    case STOCK_UNAVAILABLE => Some(Cancelled)
    case SHIPMENT_CREATED => Some(Shipped)
    case _ => None
  }

  function Informed(v: View, t: EventType): View {
    if StatusFor(t).Some? then Popped(v, OrderQ).(status := StatusFor(t)) else Popped(v, OrderQ)
  }

  lemma InformedInLife(v: View)
    requires v.order != [] && v.status.Some?
    ensures OnCourse(v) ==> OnCourse(Informed(v, v.order[0]))
    ensures WindingDown(v) ==> WindingDown(Informed(v, v.order[0]))
  {
  }

  lemma WorkedStatus(f: Plant, env: Env)
    requires Enabled(f, Work(OrderQ, env)) && f.queues.order[0].order in f.world.orders
    ensures var e := f.queues.order[0]; Worked(f, OrderQ, env) == Informed(Look(f, e.order), TypeOf(e))
  {
    var e := f.queues.order[0];
    PoppedIsSeen(f, OrderQ, e.order);
    if StatusFor(TypeOf(e)).Some? {
      SetStatusGrows(f.world.orders, e.order, StatusFor(TypeOf(e)).value);
    }
  }

  lemma OrderWork(f: Plant, env: Env)
    requires Enabled(f, Work(OrderQ, env))
    requires var o := f.queues.order[0].order; o in f.world.orders && InLife(f, o, Look(f, o))
    ensures InLife(f, f.queues.order[0].order, Worked(f, OrderQ, env))
  {
    FirstOfTrail(f, OrderQ);
    WorkedStatus(f, env);
    InformedInLife(Look(f, f.queues.order[0].order));
  }

  /** The shipment was made or found, and announced. */
  function Dispatched(v: View): View {
    Heard(Popped(v, ShippingQ).(shipped := true), SHIPMENT_CREATED)
  }

  lemma DispatchedInLife(v: View)
    requires v.shipping != []
    ensures OnCourse(v) ==> OnCourse(Dispatched(v))
    ensures WindingDown(v) ==> WindingDown(Dispatched(v))
  {
  }

  lemma WorkedDispatch(f: Plant, env: Env)
    requires Enabled(f, Work(ShippingQ, env)) && f.queues.shipping[0].StockReserved?
    ensures Worked(f, ShippingQ, env) == Dispatched(Look(f, f.queues.shipping[0].order))
  {
    var o, r := f.queues.shipping[0].order, Handled(f, ShippingQ, env);
    var v := Popped(Look(f, o), ShippingQ);
    assert r == OnReservedForShipping(f.world, o, env);
    ShipmentAppears(f.world.shipments, o, env);
    assert Seen(v, r.world, o) == v.(shipped := true);
  }

  lemma ShippingWork(f: Plant, env: Env)
    requires Enabled(f, Work(ShippingQ, env))
    requires var o := f.queues.shipping[0].order; o in f.world.orders && InLife(f, o, Look(f, o))
    ensures InLife(f, f.queues.shipping[0].order, Worked(f, ShippingQ, env))
  {
    var e := f.queues.shipping[0];
    FirstOfTrail(f, ShippingQ);
    if e.StockReserved? {
      WorkedDispatch(f, env);
      DispatchedInLife(Look(f, e.order));
    }
  }

  lemma ShipmentAppears(rows: seq<Shipment>, o: int, env: Env)
    ensures HasShipment(CreateShipment(rows, o, env), o)
  {
    if !HasShipment(rows, o) {
      assert NewShipment(o, env) in CreateShipment(rows, o, env);
    }
  }

  lemma WorkKeepsOwnView(f: Plant, q: Queue, env: Env)
    requires Inv(f) && Enabled(f, Work(q, env))
    ensures var o := Content(f.queues, q)[0].order; o in f.world.orders && InLife(f, o, Worked(f, q, env))
  {
    QueuedOrderExists(f, q);
    assert ViewOk(f, Content(f.queues, q)[0].order);
    match q
    case InventoryQ => InventoryWork(f, env);
    case OrderQ => OrderWork(f, env);
    case ShippingQ => ShippingWork(f, env);
    case NotificationQ => PoppedIsSeen(f, NotificationQ, f.queues.notification[0].order);
  }

  lemma WorkKeepsViews(f: Plant, q: Queue, env: Env, o: int)
    requires Inv(f) && Enabled(f, Work(q, env))
    ensures ViewOk(Step(f, Work(q, env)), o)
  {
    var e := Content(f.queues, q)[0];
    assert ViewOk(f, o);
    HandleOnward(q, e, f.world, env, f.published);
    if o != e.order {
      HandlerIsLocal(q, e, f.world, env, o);
      OthersKeepView(f, q, env, o);
    } else {
      WorkKeepsOwnView(f, q, env);
      OwnView(f, q, env);
    }
  }

  lemma QueuedOrderExists(f: Plant, q: Queue)
    requires Inv(f) && Content(f.queues, q) != []
    ensures var e := Content(f.queues, q)[0];
            e in f.published && Justified(f.world, f.published, e) && e.order in f.world.orders
  {
    var e := Content(f.queues, q)[0];
    assert e in Content(f.queues, q);
    assert Justified(f.world, f.published, e);
    match e
    case StockReleased(o, _) =>
    case ShipmentCreated(o, id, tracking, courier) =>
      var r :| r in f.world.shipments && r.order == o && r.id == id && r.tracking == tracking;
      RowHasOrder(f, r);
    case ShipmentDelivered(o, tracking) =>
      var r :| r in f.world.shipments && r.order == o && r.tracking == tracking;
      RowHasOrder(f, r);
    case _ =>
  }

  lemma RowHasOrder(f: Plant, r: Shipment)
    requires Inv(f) && r in f.world.shipments
    ensures r.order in f.world.orders
  {
    assert RowOk(f.published, r);
    var e :| e in f.published && TypeOf(e) == STOCK_RESERVED && e.order == r.order;
    assert Justified(f.world, f.published, e);
  }

  // ----- every step keeps the invariant -----

  lemma CommandKeepsViews(f: Plant, a: Action, o: int)
    requires Inv(f) && Enabled(f, a) && !a.Work?
    ensures ViewOk(Step(f, a), o)
  {
    assert ViewOk(f, o);
    if a.NewOrder? {
      var f1 := f.(world := AddOrder(f.world, a.order, a.customer, a.lines));
      LookAfterPublish(f1, Placed(a.order, a.customer, a.lines), o);
    } else if a.Cancel? {
      CancelKeepsView(f, a.order, o);
    } else if a.Mark? {
      MarkKeepsView(f, a.index, a.status, o);
    }
  }

  lemma MarkKeepsView(f: Plant, i: nat, status: ShipmentStatus, o: int)
    requires ViewOk(f, o) && i < |f.world.shipments|
    ensures ViewOk(Step(f, Mark(i, status)), o)
  {
    var f1 := f.(world := MarkRow(f.world, i, status));
    MarkKeepsShipments(f.world, i, status, o);
    assert Look(f1, o) == Look(f, o);
    if status == Arrived {
      LookAfterPublish(f1, Arrival(f.world.shipments[i]), o);
      assert Look(Step(f, Mark(i, status)), o) == Look(f1, o);
    }
  }

  lemma MarkKeepsShipments(w: World, i: nat, status: ShipmentStatus, o: int)
    requires i < |w.shipments|
    ensures HasShipment(MarkRow(w, i, status).shipments, o) <==> HasShipment(w.shipments, o)
  {
    var rows, rows1 := w.shipments, MarkRow(w, i, status).shipments;
    assert rows1[i] in rows1 && rows[i] in rows;
    assert forall k | 0 <= k < |rows| :: rows1[k].order == rows[k].order && rows[k] in rows && rows1[k] in rows1;
  }

  lemma CancelKeepsView(f: Plant, cancelled: int, o: int)
    requires ViewOk(f, o) && Cancellable(f.world.orders, cancelled)
    ensures ViewOk(Step(f, Cancel(cancelled)), o)
  {
    SetStatusGrows(f.world.orders, cancelled, Cancelled);
    var f1 := f.(world := f.world.(orders := SetStatus(f.world.orders, cancelled, Cancelled)),
                 cancelled := f.cancelled + {cancelled});
    LookAfterPublish(f1, Cancellation(f.world.orders, cancelled), o);
  }

  lemma StepQueues(f: Plant, a: Action)
    requires Enabled(f, a) && forall q, e | e in Content(f.queues, q) :: e in f.published
    ensures f.published <= Step(f, a).published
    ensures forall q, e | e in Content(Step(f, a).queues, q) :: e in Step(f, a).published
  {
    var f1 := Step(f, a);
    forall q, e | e in Content(f1.queues, q) ensures e in f1.published {
      if a.Work? {
        PoppedContent(f.queues, a.queue, q, e);
      }
      if a.Work? && Handled(f, a.queue, a.env).out.Some? {
        PushedContent(Pop(f.queues, a.queue), Handled(f, a.queue, a.env).out.value, q, e);
      } else if a.NewOrder? {
        PushedContent(f.queues, Placed(a.order, a.customer, a.lines), q, e);
      } else if a.Cancel? {
        PushedContent(f.queues, Cancellation(f.world.orders, a.order), q, e);
      } else if a.Mark? && a.status == Arrived {
        PushedContent(f.queues, Arrival(f.world.shipments[a.index]), q, e);
      }
    }
  }

  lemma PushedContent(qs: Queues, news: Event, q: Queue, e: Event)
    ensures e in Content(Push(qs, news), q) ==> e in Content(qs, q) || e == news
  {
  }

  lemma PoppedContent(qs: Queues, from: Queue, q: Queue, e: Event)
    requires Content(qs, from) != []
    ensures e in Content(Pop(qs, from), q) ==> e in Content(qs, q)
  {
  }

  lemma StepWorld(f: Plant, a: Action)
    requires Inv(f) && Enabled(f, a)
    ensures WorldOk(Step(f, a).world, f.published) && Onward(f.world, Step(f, a).world, f.published)
  {
    match a
    case NewProduct(p, q) => AddProductKeepsWorld(f.world, f.published, p, q);
    case NewOrder(o, customer, lines) => AddOrderKeepsWorld(f.world, f.published, o, customer, lines);
    case Cancel(o) =>
      StatusKeepsWorld(f.world, f.published, o, Cancelled);
      SetStatusGrows(f.world.orders, o, Cancelled);
    case Mark(i, status) => MarkKeepsWorld(f.world, f.published, i, status);
    case Work(q, env) =>
      var e := Content(f.queues, q)[0];
      QueuedOrderExists(f, q);
      HandleKeepsWorld(q, e, f.world, env, f.published);
      HandleOnward(q, e, f.world, env, f.published);
  }

  lemma NewsJustified(f: Plant, a: Action, e: Event)
    requires Inv(f) && Enabled(f, a) && e in Step(f, a).published && e !in f.published
    ensures Justified(Step(f, a).world, f.published, e)
  {
    match a
    case Work(q, env) =>
      QueuedOrderExists(f, q);
      HandleJustified(q, Content(f.queues, q)[0], f.world, env, f.published);
    case NewOrder(_, _, _) =>
    case Cancel(o) => SetStatusGrows(f.world.orders, o, Cancelled);
    case Mark(i, status) =>
      var r := MarkRow(f.world, i, status).shipments[i];
      assert r in MarkRow(f.world, i, status).shipments && r.order == f.world.shipments[i].order;
  }

  lemma StepJustified(f: Plant, a: Action)
    requires Inv(f) && Enabled(f, a)
    ensures var f1 := Step(f, a); forall e | e in f1.published :: Justified(f1.world, f1.published, e)
  {
    var f1 := Step(f, a);
    StepQueues(f, a);
    StepWorld(f, a);
    forall e | e in f1.published ensures Justified(f1.world, f1.published, e) {
      if e in f.published {
        JustifiedLater(f.world, f.published, f1.world, f1.published, e);
      } else {
        NewsJustified(f, a, e);
        JustifiedLater(f1.world, f.published, f1.world, f1.published, e);
      }
    }
  }

  lemma StepInv(f: Plant, a: Action)
    requires Inv(f) && Enabled(f, a)
    ensures Inv(Step(f, a))
  {
    var f1 := Step(f, a);
    StepQueues(f, a);
    StepWorld(f, a);
    StepJustified(f, a);
    WorldOkLater(f1.world, f.published, f1.published);
    forall o ensures ViewOk(f1, o) {
      if a.Work? {
        WorkKeepsViews(f, a.queue, a.env, o);
      } else {
        CommandKeepsViews(f, a, o);
      }
    }
  }

  lemma {:induction false} RunInv(acts: seq<Action>)
    ensures Inv(Exec(IDLE, acts))
  {
    if acts != [] {
      var n := |acts| - 1;
      RunInv(acts[..n]);
      if Enabled(Exec(IDLE, acts[..n]), acts[n]) {
        StepInv(Exec(IDLE, acts[..n]), acts[n]);
      }
    }
  }

  // ----- who was granted stock still has it -----

  predicate GrantedOrHeldAlike(w: World, o: int) {
    o in w.granted <==> o in w.stock.held
  }

  ghost predicate GrantsHeld(f: Plant) {
    forall o | o !in f.cancelled :: GrantedOrHeldAlike(f.world, o)
  }

  lemma ClaimGrants(w: World, o: int, items: seq<Item>, o': int)
    requires Wanted(items) != map[] && GrantedOrHeldAlike(w, o')
    ensures GrantedOrHeldAlike(OnOrderCreated(w, o, items).world, o')
  {
  }

  lemma OnlyCancelledAreFreed(f: Plant)
    requires Inv(f) && f.queues.inventory != [] && f.queues.inventory[0].OrderCancelled?
    ensures f.queues.inventory[0].order in f.cancelled
  {
    var o := f.queues.inventory[0].order;
    QueuedOrderExists(f, InventoryQ);
    assert ViewOk(f, o);
    FirstOfTrail(f, InventoryQ);
    FreedInLife(Look(f, o));
  }

  lemma InventoryGrants(f: Plant, env: Env)
    requires Inv(f) && Enabled(f, Work(InventoryQ, env)) && GrantsHeld(f)
    ensures GrantsHeld(Step(f, Work(InventoryQ, env)))
  {
    var e, f1 := f.queues.inventory[0], Step(f, Work(InventoryQ, env));
    forall o | o !in f1.cancelled ensures GrantedOrHeldAlike(f1.world, o) {
      assert GrantedOrHeldAlike(f.world, o);
      if e.OrderCreated? {
        QueuedClaimIsReal(f);
        ClaimGrants(f.world, e.order, e.items, o);
      } else if e.OrderCancelled? {
        OnlyCancelledAreFreed(f);
      }
    }
  }

  lemma OthersGrant(f: Plant, a: Action)
    requires Enabled(f, a) && !(a.Work? && a.queue == InventoryQ)
    ensures Step(f, a).world.granted == f.world.granted
    ensures Step(f, a).world.stock.held == f.world.stock.held
    ensures f.cancelled <= Step(f, a).cancelled
  {
  }

  lemma {:induction false} RunGrants(acts: seq<Action>)
    ensures GrantsHeld(Exec(IDLE, acts))
  {
    if acts != [] {
      var n := |acts| - 1;
      var f, a := Exec(IDLE, acts[..n]), acts[n];
      RunGrants(acts[..n]);
      RunInv(acts[..n]);
      if Enabled(f, a) {
        if a.Work? && a.queue == InventoryQ {
          InventoryGrants(f, a.env);
        } else {
          OthersGrant(f, a);
          forall o | o !in Step(f, a).cancelled ensures GrantedOrHeldAlike(Step(f, a).world, o) {
            assert GrantedOrHeldAlike(f.world, o);
          }
        }
      }
    }
  }

  // ----- main results -----

  function CountShipments(rows: seq<Shipment>, o: int): nat {
    if rows == [] then 0 else (if rows[0].order == o then 1 else 0) + CountShipments(rows[1..], o)
  }

  lemma {:induction false} OneShipment(rows: seq<Shipment>, o: int)
    requires RowsDistinct(rows)
    ensures CountShipments(rows, o) == if HasShipment(rows, o) then 1 else 0
  {
    if rows != [] {
      assert RowsDistinct(rows[1..]);
      OneShipment(rows[1..], o);
    }
  }

  /** At rest an order nobody cancelled is shipped in full if its claim was granted, else refused without a trace. */
  lemma QuiescenceCorrect(acts: seq<Action>, o: int)
    requires AtRest(Exec(IDLE, acts))
    requires o in Exec(IDLE, acts).world.orders && o !in Exec(IDLE, acts).cancelled
    ensures var w := Exec(IDLE, acts).world;
            || (&& w.orders[o].status == Shipped
                && o in w.stock.held
                && w.stock.held[o].Keys == (set l | l in w.orders[o].lines :: l.product)
                && (forall p | p in w.stock.held[o] :: w.stock.held[o][p] == Bought(w.orders[o].lines, p))
                && CountShipments(w.shipments, o) == 1)
            || (&& w.orders[o].status == Cancelled
                && o !in w.stock.held
                && CountShipments(w.shipments, o) == 0)
    ensures var w := Exec(IDLE, acts).world; w.orders[o].status == Shipped <==> o in w.granted
  {
    RunInv(acts);
    RunGrants(acts);
    var f := Exec(IDLE, acts);
    assert ViewOk(f, o) && GrantedOrHeldAlike(f.world, o);
    OneShipment(f.world.shipments, o);
    if o in f.world.stock.held {
      HeldIsBasket(f.world, o);
    }
  }

  /** What shipped, never-cancelled orders are owed. */
  function Owed(w: World, cancelled: set<int>): map<int, map<int, int>> {
    map o | o in w.orders && o !in cancelled && w.orders[o].status == Shipped :: Basket(w.orders[o].lines)
  }

  /** At rest, cancelled orders hold nothing, and stock is short by exactly what the shipped orders took. */
  lemma CancellationRestoresStock(acts: seq<Action>, o: int, p: int)
    requires AtRest(Exec(IDLE, acts))
    ensures o in Exec(IDLE, acts).cancelled ==> o !in Exec(IDLE, acts).world.stock.held
    ensures var f := Exec(IDLE, acts);
            && f.world.stock.held == Owed(f.world, f.cancelled)
            && (o in f.world.stock.held <==>
                  o in f.world.orders && o !in f.cancelled && f.world.orders[o].status == Shipped)
            && (p in f.world.created ==>
                  && p in f.world.stock.available
                  && f.world.stock.available[p] == f.world.created[p] - HeldTotal(Owed(f.world, f.cancelled), p))
  {
    RunInv(acts);
    assert ViewOk(Exec(IDLE, acts), o);
    HeldIsOwed(Exec(IDLE, acts));
  }

  lemma HeldIsOwed(f: Plant)
    requires Inv(f) && AtRest(f)
    ensures f.world.stock.held == Owed(f.world, f.cancelled)
  {
    var owed := Owed(f.world, f.cancelled);
    forall o' ensures o' in f.world.stock.held <==> o' in owed {
      assert ViewOk(f, o');
    }
    forall o' | o' in owed ensures f.world.stock.held[o'] == owed[o'] {
      assert HeldAgrees(f.world, o');
      HeldIsBasket(f.world, o');
    }
    assert f.world.stock.held == owed;
  }

  // ----- a shipped order stays shipped -----

  /** Shipped, never cancelled, and still holding what it took. */
  predicate Safely(f: Plant, o: int) {
    && o in f.world.orders && f.world.orders[o].status == Shipped
    && o !in f.cancelled && o in f.world.stock.held
  }

  /** Nothing is queued any more that could move a shipped order. */
  lemma OwnWorkIsNews(f: Plant, q: Queue, env: Env, o: int)
    requires Inv(f) && Safely(f, o) && Enabled(f, Work(q, env)) && Content(f.queues, q)[0].order == o
    ensures q == NotificationQ && Step(f, Work(q, env)).world == f.world
  {
    assert ViewOk(f, o);
    FirstOfTrail(f, q);
  }

  lemma WorkKeepsShipped(f: Plant, q: Queue, env: Env, o: int)
    requires Inv(f) && Safely(f, o) && Enabled(f, Work(q, env))
    ensures Safely(Step(f, Work(q, env)), o)
  {
    var e := Content(f.queues, q)[0];
    if e.order == o {
      OwnWorkIsNews(f, q, env, o);
    } else {
      HandlerIsLocal(q, e, f.world, env, o);
    }
  }

  /** The guard on cancelling is what keeps clients away from it. */
  lemma CommandKeepsShipped(f: Plant, a: Action, o: int)
    requires Safely(f, o) && Enabled(f, a) && !a.Work?
    ensures Safely(Step(f, a), o)
  {
    if a.Cancel? {
      SetStatusGrows(f.world.orders, a.order, Cancelled);
    }
  }

  lemma SameHolding(w: World, w1: World, o: int)
    requires o in w.stock.held && o in w1.stock.held && HeldAgrees(w, o) && HeldAgrees(w1, o)
    requires OrdersGrow(w.orders, w1.orders)
    ensures w1.stock.held[o] == w.stock.held[o]
  {
  }

  lemma StepKeepsShipped(f: Plant, a: Action, o: int)
    requires Inv(f) && Safely(f, o) && Enabled(f, a)
    ensures Inv(Step(f, a)) && Safely(Step(f, a), o) && Step(f, a).world.stock.held[o] == f.world.stock.held[o]
  {
    StepWorld(f, a);
    StepInv(f, a);
    if a.Work? {
      WorkKeepsShipped(f, a.queue, a.env, o);
    } else {
      CommandKeepsShipped(f, a, o);
    }
    SameHolding(f.world, Step(f, a).world, o);
  }

  lemma {:induction false} RunKeepsShipped(f: Plant, more: seq<Action>, o: int)
    requires Inv(f) && Safely(f, o)
    ensures var f1 := Exec(f, more); Inv(f1) && Safely(f1, o) && f1.world.stock.held[o] == f.world.stock.held[o]
  {
    if more != [] {
      var init, a := more[..|more| - 1], more[|more| - 1];
      RunKeepsShipped(f, init, o);
      if Enabled(Exec(f, init), a) {
        StepKeepsShipped(Exec(f, init), a, o);
      }
    }
  }

  /** A shipped order no client cancelled in time stays shipped, cannot be cancelled and keeps its stock for good. */
  lemma ShippedForGood(acts: seq<Action>, more: seq<Action>, o: int)
    requires var f := Exec(IDLE, acts);
             o in f.world.orders && f.world.orders[o].status == Shipped && o !in f.cancelled
    ensures var f, f1 := Exec(IDLE, acts), Exec(IDLE, acts + more);
            && o in f1.world.orders && f1.world.orders[o].status == Shipped && o !in f1.cancelled
            && o in f.world.stock.held && o in f1.world.stock.held
            && f1.world.stock.held[o] == f.world.stock.held[o]
  {
    RunInv(acts);
    assert ViewOk(Exec(IDLE, acts), o);
    FoldJoin(Apply, IDLE, acts, more);
    RunKeepsShipped(Exec(IDLE, acts), more, o);
  }

  // ----- rest is always reached -----

  /** What handling one queued event can still cause: itself and everything announced because of it. */
  function Load(q: Queue, t: EventType): nat {
    if q == InventoryQ && t == ORDER_CREATED then 6
    else if q == ShippingQ && t == STOCK_RESERVED then 3
    else 1
  }

  function QueueLoad(q: Queue, es: seq<Event>): nat {
    if es == [] then 0 else Load(q, TypeOf(es[0])) + QueueLoad(q, es[1..])
  }

  function Backlog(qs: Queues): nat {
    QueueLoad(OrderQ, qs.order) + QueueLoad(InventoryQ, qs.inventory) +
    QueueLoad(ShippingQ, qs.shipping) + QueueLoad(NotificationQ, qs.notification)
  }

  lemma {:induction false} LoadAppend(q: Queue, es: seq<Event>, e: Event)
    ensures QueueLoad(q, es + [e]) == QueueLoad(q, es) + Load(q, TypeOf(e))
  {
    if es != [] {
      LoadAppend(q, es[1..], e);
      assert (es + [e])[1..] == es[1..] + [e];
    }
  }

  function NewsLoad(t: EventType): nat {
    match t
    case ORDER_CREATED => 7
    case STOCK_RESERVED => 5
    case SHIPMENT_CREATED => 2
    case STOCK_RELEASED => 0
    case _ => 1
  }

  lemma PushLoad(qs: Queues, e: Event)
    ensures Backlog(Push(qs, e)) == Backlog(qs) + NewsLoad(TypeOf(e))
  {
    LoadAppend(OrderQ, qs.order, e);
    LoadAppend(InventoryQ, qs.inventory, e);
    LoadAppend(ShippingQ, qs.shipping, e);
    LoadAppend(NotificationQ, qs.notification, e);
  }

  lemma HandlerLoad(q: Queue, e: Event, w: World, env: Env)
    ensures Handle(q, e, w, env).out.Some? ==> NewsLoad(TypeOf(Handle(q, e, w, env).out.value)) < Load(q, TypeOf(e))
  {
  }

  lemma WorkShrinksBacklog(f: Plant, q: Queue, env: Env)
    requires Enabled(f, Work(q, env))
    ensures Backlog(Step(f, Work(q, env)).queues) < Backlog(f.queues)
  {
    var e, r := Content(f.queues, q)[0], Handled(f, q, env);
    HandlerLoad(q, e, f.world, env);
    if r.out.Some? {
      PushLoad(Pop(f.queues, q), r.out.value);
    }
  }

  /** Steps of the services alone, each possible at its turn. */
  predicate OnlyWork(f: Plant, acts: seq<Action>) {
    Possible(Enabled, Apply, f, acts) && forall a | a in acts :: a.Work?
  }

  lemma {:induction false} WorkIsBounded(f: Plant, acts: seq<Action>)
    requires OnlyWork(f, acts)
    ensures |acts| + Backlog(Exec(f, acts).queues) <= Backlog(f.queues)
  {
    if acts != [] {
      var init, a := acts[..|acts| - 1], acts[|acts| - 1];
      assert acts == init + [a];
      WorkIsBounded(f, init);
      WorkShrinksBacklog(Exec(f, init), a.queue, a.env);
    }
  }

  /** A next step for some service, while any queue holds anything. */
  lemma SomeWork(f: Plant) returns (a: Action)
    requires !AtRest(f)
    ensures a.Work? && Enabled(f, a)
  {
    var q :| Content(f.queues, q) != [];
    a := Work(q, Env(NextId(f.world.shipments), 2026, ""));
  }

  lemma WorkFirst(f: Plant, a: Action, rest: seq<Action>)
    requires Enabled(f, a) && a.Work? && OnlyWork(Step(f, a), rest)
    ensures OnlyWork(f, [a] + rest) && Exec(f, [a] + rest) == Exec(Step(f, a), rest)
  {
    FoldOne(Apply, f, [], a);
    PossibleOne(Enabled, Apply, f, [], a);
    assert [] + [a] == [a];
    WorkJoin(f, [a], rest);
  }

  lemma WorkJoin(f: Plant, first: seq<Action>, second: seq<Action>)
    requires OnlyWork(f, first) && OnlyWork(Exec(f, first), second)
    ensures OnlyWork(f, first + second) && Exec(f, first + second) == Exec(Exec(f, first), second)
  {
    FoldJoin(Apply, f, first, second);
    PossibleJoin(Enabled, Apply, f, first, second);
  }

  lemma {:induction false} WorkCanFinish(f: Plant) returns (acts: seq<Action>)
    ensures OnlyWork(f, acts) && AtRest(Exec(f, acts))
    decreases Backlog(f.queues)
  {
    if AtRest(f) {
      acts := [];
    } else {
      var a := SomeWork(f);
      WorkShrinksBacklog(f, a.queue, a.env);
      var rest := WorkCanFinish(Step(f, a));
      WorkFirst(f, a, rest);
      acts := [a] + rest;
    }
  }

  /**
   * From any state, every schedule of the services is at most as long as the backlog, it is stuck
   * exactly when all queues are empty, and it can always be continued until they are.
   */
  lemma WorkLeadsToRest(f: Plant, acts: seq<Action>)
    requires OnlyWork(f, acts)
    ensures |acts| <= Backlog(f.queues)
    ensures (forall a: Action | a.Work? :: !Enabled(Exec(f, acts), a)) <==> AtRest(Exec(f, acts))
    ensures exists more :: OnlyWork(f, acts + more) && AtRest(Exec(f, acts + more))
  {
    WorkIsBounded(f, acts);
    if !AtRest(Exec(f, acts)) {
      var _ := SomeWork(Exec(f, acts));
    }
    var more := WorkCanFinish(Exec(f, acts));
    WorkJoin(f, acts, more);
  }

  // ----- the trail of an order -----

  predicate IsSuffix<T(==)>(s: seq<T>, t: seq<T>) {
    |s| <= |t| && forall i | 0 <= i < |s| :: s[i] == t[|t| - |s| + i]
  }

  predicate IsOrderSuffix(s: seq<EventType>) {
    IsSuffix(s, [STOCK_RESERVED, SHIPMENT_CREATED]) || IsSuffix(s, [STOCK_UNAVAILABLE])
  }

  /**
   * What the order service still has to hear about a never-cancelled order is a contiguous part of
   * [StockReserved, ShipmentCreated] or of [StockUnavailable]; it is a suffix of one of them exactly
   * when it is empty or shipping has nothing left to do for the order.
   */
  lemma OrderTrail(acts: seq<Action>, o: int)
    requires o in Exec(IDLE, acts).world.orders && o !in Exec(IDLE, acts).cancelled
    ensures var f := Exec(IDLE, acts);
            var trail := Trail(f.queues.order, o);
            && (IsOrderSuffix(trail) || trail == [STOCK_RESERVED])
            && (IsOrderSuffix(trail) <==> trail == [] || Trail(f.queues.shipping, o) == [])
  {
    RunInv(acts);
    assert ViewOk(Exec(IDLE, acts), o);
    CourseTrail(Look(Exec(IDLE, acts), o));
  }

  lemma CourseTrail(v: View)
    requires OnCourse(v)
    ensures IsOrderSuffix(v.order) || v.order == [STOCK_RESERVED]
    ensures IsOrderSuffix(v.order) <==> v.order == [] || v.shipping == []
  {
    OrderSuffixes();
    assert v.order in {[], [STOCK_UNAVAILABLE], [STOCK_RESERVED], [SHIPMENT_CREATED], [STOCK_RESERVED, SHIPMENT_CREATED]};
  }

  lemma OrderSuffixes()
    ensures IsOrderSuffix([]) && IsOrderSuffix([SHIPMENT_CREATED]) && IsOrderSuffix([STOCK_RESERVED, SHIPMENT_CREATED])
    ensures IsOrderSuffix([STOCK_UNAVAILABLE]) && !IsOrderSuffix([STOCK_RESERVED])
  {
    assert [STOCK_RESERVED][0] == STOCK_RESERVED;
  }

  /** One product, one order for one unit of it, nothing handled yet. */
  lemma Example() returns (acts: seq<Action>)
    ensures var f := Exec(IDLE, acts);
            && f.queues.inventory == [OrderCreated(7, 2, 100, [Item(1, 1)])] && f.queues.order == []
            && f.world.stock == Store(map[1 := 5], map[])
            && 7 in f.world.orders && f.cancelled == {} && f.world.shipments == []
  {
    acts := [] + [NewProduct(1, 5)] + [NewOrder(7, 2, [Line(1, 1, 100)])];
    assert Payload([Line(1, 1, 100)]) == [Item(1, 1)];
    FoldOne(Apply, IDLE, [], NewProduct(1, 5));
    FoldOne(Apply, IDLE, [] + [NewProduct(1, 5)], NewOrder(7, 2, [Line(1, 1, 100)]));
  }

  /** The trail is not always such a suffix: right after a reservation it is [StockReserved] alone. */
  lemma TrailNeedNotBeSuffix(env: Env)
    ensures exists acts, o ::
              && o in Exec(IDLE, acts).world.orders && o !in Exec(IDLE, acts).cancelled
              && !IsOrderSuffix(Trail(Exec(IDLE, acts).queues.order, o))
  {
    var before := Example();
    var acts := before + [Work(InventoryQ, env)];
    FoldOne(Apply, IDLE, before, Work(InventoryQ, env));
    AfterReserving(Exec(IDLE, before), env);
    assert Trail(Exec(IDLE, acts).queues.order, 7) == [STOCK_RESERVED];
    OrderSuffixes();
  }

  lemma AfterReserving(f: Plant, env: Env)
    requires f.queues.inventory == [OrderCreated(7, 2, 100, [Item(1, 1)])] && f.queues.order == []
    requires f.world.stock == Store(map[1 := 5], map[]) && f.world.shipments == []
    ensures var f1 := Apply(f, Work(InventoryQ, env));
            && f1.queues.order == [StockReserved(7, [Item(1, 1)])]
            && f1.world.orders == f.world.orders && f1.cancelled == f.cancelled
  {
    OneUnitFits(f.world.stock, [Item(1, 1)]);
    assert Handled(f, InventoryQ, env).out == Some(StockReserved(7, [Item(1, 1)]));
  }

  lemma OneUnitFits(s: Store, items: seq<Item>)
    requires s == Store(map[1 := 5], map[]) && items == [Item(1, 1)]
    ensures Reserve(s, 7, items).ok
  {
    assert Demand(items[..0], 1) == 0 && Demand(items, 1) == 1;
    ReserveVerdict(s, 7, items);
  }
}
