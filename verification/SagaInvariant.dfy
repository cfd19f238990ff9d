/** What every handler and every client request keeps true of the three databases and the event history. */
module SagaInvariant {
  import opened Domain
  import opened Allocation
  import opened Numerals
  import opened Saga

  /** An event of this type about this order has been published. */
  ghost predicate Said(published: seq<Event>, t: EventType, o: int) {
    exists e :: e in published && TypeOf(e) == t && e.order == o
  }

  /** The reservation of an order is its own stored lines, aggregated. */
  predicate HeldAgrees(w: World, o: int)
    requires o in w.stock.held
  {
    o in w.orders && w.stock.held[o] == Wanted(Payload(w.orders[o].lines))
  }

  predicate OrderOk(w: World, o: int)
    requires o in w.orders
  {
    && ValidLines(w.orders[o].lines)
    && w.orders[o].total == Total(w.orders[o].lines)
    && w.orders[o].status != Delivered
    && (w.orders[o].status == Shipped ==> HasShipment(w.shipments, o))
  }

  ghost predicate RowOk(published: seq<Event>, r: Shipment) {
    Said(published, STOCK_RESERVED, r.order) && exists year: nat :: r.tracking == TrackingNumber(year, r.id)
  }

  predicate RowsDistinct(rows: seq<Shipment>) {
    forall i, j | 0 <= i < j < |rows| :: rows[i].order != rows[j].order && rows[i].id != rows[j].id
  }

  ghost predicate WorldOk(w: World, published: seq<Event>) {
    && (forall o | o in w.orders :: OrderOk(w, o))
    && (forall o | o in w.stock.held :: HeldAgrees(w, o))
    && (forall r | r in w.shipments :: RowOk(published, r))
    && RowsDistinct(w.shipments)
    && Conserved(w.stock, w.created) && Sound(w.stock)
  }

  /** What the databases and the history show about an event any service says. */
  ghost predicate Justified(w: World, published: seq<Event>, e: Event) {
    match e
    case OrderCreated(o, customer, total, items) =>
      && o in w.orders && items == Payload(w.orders[o].lines)
      && customer == w.orders[o].customer && total == w.orders[o].total
    case OrderCancelled(o, customer) => o in w.orders && customer == w.orders[o].customer
    case StockReserved(o, items) =>
      && o in w.orders && items == Payload(w.orders[o].lines)
      && o in w.granted && (o in w.stock.held || Said(published, ORDER_CANCELLED, o))
    case StockUnavailable(o) => o in w.orders
    case StockReleased(o, products) =>
      Said(published, ORDER_CANCELLED, o) && o in w.orders && products == Named(w.orders[o].lines)
    case ShipmentCreated(o, id, tracking, courier) =>
      exists r :: r in w.shipments && r.order == o && r.id == id && r.tracking == tracking && r.courier == courier
    case ShipmentDelivered(o, tracking) =>
      exists r :: r in w.shipments && r.order == o && r.tracking == tracking
  }

  predicate SameRow(r: Shipment, r': Shipment) {
    r.id == r'.id && r.order == r'.order && r.tracking == r'.tracking && r.courier == r'.courier
  }

  predicate RowsGrow(rows: seq<Shipment>, rows': seq<Shipment>) {
    |rows| <= |rows'| && forall i | 0 <= i < |rows| :: SameRow(rows[i], rows'[i])
  }

  predicate OrdersGrow(orders: map<int, Order>, orders': map<int, Order>) {
    forall o | o in orders :: o in orders' && orders'[o].(status := orders[o].status) == orders[o]
  }

  /** Orders keep everything but their status, shipments too, and only a cancellation frees stock. */
  ghost predicate Onward(w: World, w': World, published: seq<Event>) {
    && OrdersGrow(w.orders, w'.orders)
    && RowsGrow(w.shipments, w'.shipments)
    && w.granted <= w'.granted
    && (forall o | o in w.stock.held :: o in w'.stock.held || Said(published, ORDER_CANCELLED, o))
  }

  lemma JustifiedLater(w: World, published: seq<Event>, w': World, published': seq<Event>, e: Event)
    requires Justified(w, published, e) && Onward(w, w', published') && published <= published'
    ensures Justified(w', published', e)
  {
    if e.StockReserved? || e.StockReleased? {
      if Said(published, ORDER_CANCELLED, e.order) {
        SaidLater(published, published', ORDER_CANCELLED, e.order);
      }
    } else if e.ShipmentCreated? {
      var r :| r in w.shipments && r.order == e.order && r.id == e.shipment && r.tracking == e.tracking
               && r.courier == e.courier;
      RowLater(w.shipments, w'.shipments, r);
    } else if e.ShipmentDelivered? {
      var r :| r in w.shipments && r.order == e.order && r.tracking == e.tracking;
      RowLater(w.shipments, w'.shipments, r);
    }
  }

  lemma RowLater(rows: seq<Shipment>, rows': seq<Shipment>, r: Shipment)
    requires RowsGrow(rows, rows') && r in rows
    ensures exists r' :: r' in rows' && SameRow(r, r')
    ensures HasShipment(rows', r.order)
  {
    var i :| 0 <= i < |rows| && rows[i] == r;
    assert SameRow(rows[i], rows'[i]) && rows'[i] in rows';
  }

  lemma HasShipmentLater(rows: seq<Shipment>, rows': seq<Shipment>, o: int)
    requires RowsGrow(rows, rows') && HasShipment(rows, o)
    ensures HasShipment(rows', o)
  {
    RowLater(rows, rows', FindShipment(rows, o).value);
  }

  lemma SaidLater(published: seq<Event>, published': seq<Event>, t: EventType, o: int)
    requires published <= published' && Said(published, t, o)
    ensures Said(published', t, o)
  {
    var e :| e in published && TypeOf(e) == t && e.order == o;
    assert e in published';
  }

  lemma WorldOkLater(w: World, published: seq<Event>, published': seq<Event>)
    requires WorldOk(w, published) && published <= published'
    ensures WorldOk(w, published')
  {
    forall r | r in w.shipments ensures RowOk(published', r) {
      assert RowOk(published, r);
      SaidLater(published, published', STOCK_RESERVED, r.order);
    }
  }

  // ----- payloads -----

  lemma PayloadPositive(lines: seq<Line>)
    requires ValidLines(lines)
    ensures Payload(lines) != [] && forall i | i in Payload(lines) :: 0 < i.quantity
    ensures Wanted(Payload(lines)) != map[]
  {
    var items := Payload(lines);
    forall i | i in items ensures 0 < i.quantity {
      var k :| 0 <= k < |items| && items[k] == i;
      assert lines[k] in lines;
    }
    assert items[0].product in Wanted(items);
  }

  lemma HeldIsBasket(w: World, o: int)
    requires o in w.stock.held && HeldAgrees(w, o)
    ensures o in w.orders && w.stock.held[o] == Basket(w.orders[o].lines)
    ensures w.stock.held[o].Keys == Named(w.orders[o].lines)
  {
    WantedIsBasket(w.orders[o].lines);
  }

  // ----- handlers -----

  lemma SetStatusGrows(orders: map<int, Order>, o: int, status: Status)
    ensures OrdersGrow(orders, SetStatus(orders, o, status))
    ensures SetStatus(orders, o, status).Keys == orders.Keys
    ensures o in orders ==> SetStatus(orders, o, status)[o].status == status
    ensures forall o' | o' in orders && o' != o :: SetStatus(orders, o, status)[o'] == orders[o']
  {
  }

  lemma StatusKeepsWorld(w: World, published: seq<Event>, o: int, status: Status)
    requires WorldOk(w, published) && status != Delivered
    requires status == Shipped ==> HasShipment(w.shipments, o)
    ensures WorldOk(w.(orders := SetStatus(w.orders, o, status)), published)
  {
    var w1 := w.(orders := SetStatus(w.orders, o, status));
    SetStatusGrows(w.orders, o, status);
    forall o' | o' in w1.orders ensures OrderOk(w1, o') {
      assert OrderOk(w, o');
    }
    forall o' | o' in w1.stock.held ensures HeldAgrees(w1, o') {
      assert HeldAgrees(w, o');
    }
  }

  lemma CreatedKeepsWorld(w: World, published: seq<Event>, o: int, items: seq<Item>)
    requires WorldOk(w, published) && o in w.orders && items == Payload(w.orders[o].lines)
    ensures WorldOk(OnOrderCreated(w, o, items).world, published)
    ensures Justified(OnOrderCreated(w, o, items).world, published, OnOrderCreated(w, o, items).out.value)
    ensures o in w.stock.held ==> OnOrderCreated(w, o, items).out == Some(StockReserved(o, items))
    ensures o in OnOrderCreated(w, o, items).world.stock.held && o !in w.stock.held ==>
              OnOrderCreated(w, o, items).out == Some(StockReserved(o, items))
  {
    var w1 := OnOrderCreated(w, o, items).world;
    assert OrderOk(w, o);
    PayloadPositive(w.orders[o].lines);
    ReserveConserves(w.stock, o, items, w.created);
    ReserveSound(w.stock, o, items);
    forall o' | o' in w1.stock.held ensures HeldAgrees(w1, o') {
      if o' in w.stock.held {
        assert HeldAgrees(w, o');
      }
    }
    forall o' | o' in w1.orders ensures OrderOk(w1, o') {
      assert OrderOk(w, o');
    }
  }

  lemma CancelledKeepsWorld(w: World, published: seq<Event>, o: int)
    requires WorldOk(w, published)
    ensures WorldOk(OnOrderCancelled(w, o).world, published)
  {
    var w1 := OnOrderCancelled(w, o).world;
    ReleaseConserves(w.stock, o, w.created);
    ReleaseSound(w.stock, o);
    forall o' | o' in w1.stock.held ensures HeldAgrees(w1, o') {
      assert HeldAgrees(w, o');
    }
    forall o' | o' in w1.orders ensures OrderOk(w1, o') {
      assert OrderOk(w, o');
    }
  }

  lemma ShippingKeepsWorld(w: World, published: seq<Event>, o: int, env: Env)
    requires WorldOk(w, published) && FreshId(w.shipments, env.id) && Said(published, STOCK_RESERVED, o)
    ensures WorldOk(OnReservedForShipping(w, o, env).world, published)
    ensures Justified(OnReservedForShipping(w, o, env).world, published, OnReservedForShipping(w, o, env).out.value)
    ensures RowsGrow(w.shipments, OnReservedForShipping(w, o, env).world.shipments)
  {
    var w1 := OnReservedForShipping(w, o, env).world;
    if !HasShipment(w.shipments, o) {
      var r := NewShipment(o, env);
      assert w1.shipments == w.shipments + [r];
      assert w1.shipments[|w.shipments|] == r;
      assert RowOk(published, r);
    }
    forall o' | o' in w1.orders ensures OrderOk(w1, o') {
      assert OrderOk(w, o');
      if HasShipment(w.shipments, o') {
        HasShipmentLater(w.shipments, w1.shipments, o');
      }
    }
    forall o' | o' in w1.stock.held ensures HeldAgrees(w1, o') {
      assert HeldAgrees(w, o');
    }
  }

  /** Whatever published event a queue handles, its database effect keeps the invariant. */
  lemma HandleKeepsWorld(q: Queue, e: Event, w: World, env: Env, published: seq<Event>)
    requires WorldOk(w, published) && e in published && Justified(w, published, e)
    requires FreshId(w.shipments, env.id)
    ensures WorldOk(Handle(q, e, w, env).world, published)
  {
    match (q, e)
    case (InventoryQ, OrderCreated(o, _, _, items)) => CreatedKeepsWorld(w, published, o, items);
    case (InventoryQ, OrderCancelled(o, _)) => CancelledKeepsWorld(w, published, o);
    case (ShippingQ, StockReserved(o, items)) => ShippingKeepsWorld(w, published, o, env);
    case (OrderQ, StockReserved(o, items)) => StatusKeepsWorld(w, published, o, Confirmed);
    case (OrderQ, StockUnavailable(o)) => StatusKeepsWorld(w, published, o, Cancelled);
    case (OrderQ, ShipmentCreated(o, _, _, _)) => StatusKeepsWorld(w, published, o, Shipped);
    case _ =>
  }

  lemma HandleOnward(q: Queue, e: Event, w: World, env: Env, published: seq<Event>)
    requires e in published
    ensures Onward(w, Handle(q, e, w, env).world, published)
  {
    if q == OrderQ {
      OrderOnward(e, w, env, published);
    } else if q == InventoryQ {
      InventoryOnward(e, w, env, published);
    }
  }

  lemma OrderOnward(e: Event, w: World, env: Env, published: seq<Event>)
    ensures Onward(w, Handle(OrderQ, e, w, env).world, published)
  {
    match e
    case StockReserved(o, _) => SetStatusGrows(w.orders, o, Confirmed);
    case StockUnavailable(o) => SetStatusGrows(w.orders, o, Cancelled);
    case ShipmentCreated(o, _, _, _) => SetStatusGrows(w.orders, o, Shipped);
    case _ =>
  }

  lemma InventoryOnward(e: Event, w: World, env: Env, published: seq<Event>)
    requires e in published
    ensures Onward(w, Handle(InventoryQ, e, w, env).world, published)
  {
    var w1 := Handle(InventoryQ, e, w, env).world;
    forall o | o in w.stock.held ensures o in w1.stock.held || Said(published, ORDER_CANCELLED, o) {
      if o != e.order && e.OrderCancelled? {
        OthersUntouched(w.stock, e.order, [], o);
      }
    }
  }

  lemma ReleaseJustified(w: World, published: seq<Event>, o: int, customer: int)
    requires WorldOk(w, published) && OrderCancelled(o, customer) in published && OnOrderCancelled(w, o).out.Some?
    ensures Justified(OnOrderCancelled(w, o).world, published, OnOrderCancelled(w, o).out.value)
  {
    HeldIsBasket(w, o);
  }

  /** Whatever a handler announces is justified by the databases it just committed. */
  lemma HandleJustified(q: Queue, e: Event, w: World, env: Env, published: seq<Event>)
    requires WorldOk(w, published) && e in published && Justified(w, published, e)
    requires FreshId(w.shipments, env.id) && Handle(q, e, w, env).out.Some?
    ensures Justified(Handle(q, e, w, env).world, published, Handle(q, e, w, env).out.value)
  {
    match (q, e)
    case (InventoryQ, OrderCreated(o, _, _, items)) => CreatedKeepsWorld(w, published, o, items);
    case (InventoryQ, OrderCancelled(o, customer)) => ReleaseJustified(w, published, o, customer);
    case (ShippingQ, StockReserved(o, items)) => ShippingKeepsWorld(w, published, o, env);
    case _ =>
  }

  // ----- client requests -----

  lemma AddOrderKeepsWorld(w: World, published: seq<Event>, o: int, customer: int, lines: seq<Line>)
    requires WorldOk(w, published) && o !in w.orders && ValidLines(lines)
    ensures WorldOk(AddOrder(w, o, customer, lines), published)
    ensures Onward(w, AddOrder(w, o, customer, lines), published)
  {
    var w1 := AddOrder(w, o, customer, lines);
    forall o' | o' in w1.orders ensures OrderOk(w1, o') {
      assert o' != o ==> OrderOk(w, o');
    }
    forall o' | o' in w1.stock.held ensures HeldAgrees(w1, o') {
      assert HeldAgrees(w, o');
    }
  }

  lemma AddProductKeepsWorld(w: World, published: seq<Event>, p: int, q: int)
    requires WorldOk(w, published) && p !in w.created && 0 <= q
    ensures WorldOk(AddProduct(w, p, q), published)
    ensures Onward(w, AddProduct(w, p, q), published)
  {
    var w1 := AddProduct(w, p, q);
    StockConserves(w.stock, p, q, w.created);
    forall o' | o' in w1.orders ensures OrderOk(w1, o') {
      assert OrderOk(w, o');
    }
    forall o' | o' in w1.stock.held ensures HeldAgrees(w1, o') {
      assert HeldAgrees(w, o');
    }
  }

  lemma MarkKeepsWorld(w: World, published: seq<Event>, i: nat, status: ShipmentStatus)
    requires WorldOk(w, published) && i < |w.shipments|
    ensures WorldOk(MarkRow(w, i, status), published)
    ensures Onward(w, MarkRow(w, i, status), published)
  {
    var w1 := MarkRow(w, i, status);
    assert RowsGrow(w.shipments, w1.shipments);
    forall r | r in w1.shipments ensures RowOk(published, r) {
      assert RowOk(published, w.shipments[i]);
      assert r in w.shipments ==> RowOk(published, r);
    }
    forall o' | o' in w1.orders ensures OrderOk(w1, o') {
      assert OrderOk(w, o');
      if HasShipment(w.shipments, o') {
        HasShipmentLater(w.shipments, w1.shipments, o');
      }
    }
    forall o' | o' in w1.stock.held ensures HeldAgrees(w1, o') {
      assert HeldAgrees(w, o');
    }
  }
}
