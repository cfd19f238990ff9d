/** What every at-least-once run of the mesh keeps true across the three services. */
module MeshSafety {
  import opened Domain
  import opened Allocation
  import opened Numerals
  import opened Saga
  import opened SagaInvariant
  import opened Mesh

  /** `e` was published, or a request or a handler is about to publish it. */
  predicate Voiced(s: Mesh, e: Event) {
    e in s.published || Announce(e) in s.tasks ||
    exists x | x in s.slots :: x.place == Committed(Some(e))
  }

  ghost predicate Honest(s: Mesh) {
    forall e | Voiced(s, e) :: Justified(s.world, s.published, e)
  }

  ghost predicate Inv(s: Mesh) {
    Faithful(s) && WorldOk(s.world, s.published) && Honest(s)
  }

  lemma HandledIsJustified(s: Mesh, x: Slot)
    requires Inv(s) && x in s.slots
    ensures x.copy.event in s.published && Justified(s.world, s.published, x.copy.event)
  {
    assert FaithfulCopy(s, x.copy);
    assert Voiced(s, x.copy.event);
  }

  lemma CommitWorld(s: Mesh, x: Slot, env: Env)
    requires Inv(s) && Enabled(s, Commit(x, env))
    ensures var w1 := Handle(x.copy.queue, x.copy.event, s.world, env).world;
            WorldOk(w1, s.published) && Onward(s.world, w1, s.published)
  {
    HandledIsJustified(s, x);
    HandleKeepsWorld(x.copy.queue, x.copy.event, s.world, env, s.published);
    HandleOnward(x.copy.queue, x.copy.event, s.world, env, s.published);
  }

  lemma StepWorld(s: Mesh, a: Action)
    requires Inv(s) && Enabled(s, a)
    ensures WorldOk(Step(s, a).world, s.published) && Onward(s.world, Step(s, a).world, s.published)
  {
    if a.Commit? {
      CommitWorld(s, a.x, a.env);
    } else if a.WriteCancel? {
      StatusKeepsWorld(s.world, s.published, a.order, Cancelled);
      SetStatusGrows(s.world.orders, a.order, Cancelled);
    } else if a.NewProduct? {
      AddProductKeepsWorld(s.world, s.published, a.product, a.quantity);
    } else if a.NewOrder? {
      AddOrderKeepsWorld(s.world, s.published, a.order, a.customer, a.lines);
    } else if a.MarkShipment? {
      MarkKeepsWorld(s.world, s.published, a.index, a.status);
    } else {
      DatabasesUntouched(s, a);
    }
  }

  /** Only these five kinds of step write to a database. */
  lemma DatabasesUntouched(s: Mesh, a: Action)
    requires Enabled(s, a)
    requires !a.Commit? && !a.WriteCancel? && !a.NewProduct? && !a.NewOrder? && !a.MarkShipment?
    ensures Step(s, a).world == s.world
  {
  }

  /** What a step says for the first time. */
  function Saying(s: Mesh, a: Action): Option<Event>
    requires Enabled(s, a)
  {
    match a
    case Commit(x, env) => Handle(x.copy.queue, x.copy.event, s.world, env).out
    case WriteCancel(o) => Some(Cancellation(s.world.orders, o))
    case NewOrder(o, customer, lines) => Some(Placed(o, customer, lines))
    case MarkShipment(i, Arrived) => Some(Arrival(s.world.shipments[i]))
    case _ => None
  }

  lemma NewVoices(s: Mesh, a: Action, e: Event)
    requires Enabled(s, a) && Voiced(Step(s, a), e) && !Voiced(s, e)
    ensures Saying(s, a) == Some(e)
  {
    var s1 := Step(s, a);
    if e in s1.published {
      PublishedWasVoiced(s, a, e);
    } else if Announce(e) in s1.tasks {
      TaskIsSaid(s, a, e);
    } else {
      var x :| x in s1.slots && x.place == Committed(Some(e));
      Origin(s, a, x);
      SlotBecame(s, a, x);
    }
  }

  lemma PublishedWasVoiced(s: Mesh, a: Action, e: Event)
    requires Enabled(s, a) && e in Step(s, a).published
    ensures Voiced(s, e)
  {
    if a.Publish? && e !in s.published {
      assert a.x in s.slots && a.x.place == Committed(Some(e));
    }
  }

  lemma TaskIsSaid(s: Mesh, a: Action, e: Event)
    requires Enabled(s, a) && Announce(e) in Step(s, a).tasks && Announce(e) !in s.tasks
    ensures Saying(s, a) == Some(e)
  {
  }

  lemma SlotBecame(s: Mesh, a: Action, y: Slot)
    requires Enabled(s, a) && OnSlot(a) && y in Step(s, a).slots && y !in s.slots && !y.place.Ready?
    ensures NextPlace(s, a) == Some(y.place) && y.copy == a.x.copy
  {
  }

  lemma SayingJustified(s: Mesh, a: Action)
    requires Inv(s) && Enabled(s, a) && Saying(s, a).Some?
    ensures Justified(Step(s, a).world, s.published, Saying(s, a).value)
  {
    match a
    case Commit(x, env) =>
      HandledIsJustified(s, x);
      HandleJustified(x.copy.queue, x.copy.event, s.world, env, s.published);
    case MarkShipment(i, status) =>
      var r := Step(s, a).world.shipments[i];
      assert r in Step(s, a).world.shipments && r.order == s.world.shipments[i].order;
    case WriteCancel(_) =>
    case NewOrder(_, _, _) =>
  }

  lemma StepInv(s: Mesh, a: Action)
    requires Inv(s) && Enabled(s, a)
    ensures Inv(Step(s, a))
  {
    var s1 := Step(s, a);
    StepFaithful(s, a);
    HistoryGrows(s, a);
    StepWorld(s, a);
    WorldOkLater(s1.world, s.published, s1.published);
    forall e | Voiced(s1, e) ensures Justified(s1.world, s1.published, e) {
      if Voiced(s, e) {
        assert Justified(s.world, s.published, e);
        JustifiedLater(s.world, s.published, s1.world, s1.published, e);
      } else {
        NewVoices(s, a, e);
        SayingJustified(s, a);
        JustifiedNow(s1.world, s.published, s1.published, e);
      }
    }
  }

  lemma JustifiedNow(w: World, published: seq<Event>, published': seq<Event>, e: Event)
    requires Justified(w, published, e) && published <= published'
    ensures Justified(w, published', e)
  {
  }

  lemma {:induction false} RunInv(acts: seq<Action>)
    ensures Inv(Exec(QUIET, acts))
  {
    if acts != [] {
      var n := |acts| - 1;
      RunInv(acts[..n]);
      if Enabled(Exec(QUIET, acts[..n]), acts[n]) {
        StepInv(Exec(QUIET, acts[..n]), acts[n]);
      }
    }
  }

  // ----- main results -----

  /** Shipped only with a shipment; a shipment only after StockReserved; StockReserved only after a grant. */
  lemma CausalSafety(acts: seq<Action>, o: int)
    ensures var s := Exec(QUIET, acts);
            && (o in s.world.orders && s.world.orders[o].status == Shipped ==> HasShipment(s.world.shipments, o))
            && (HasShipment(s.world.shipments, o) ==> Said(s.published, STOCK_RESERVED, o))
            && (Said(s.published, STOCK_RESERVED, o) ==>
                  && o in s.world.orders && o in s.world.granted
                  && (o in s.world.stock.held || Said(s.published, ORDER_CANCELLED, o)))
  {
    RunInv(acts);
    var s := Exec(QUIET, acts);
    if o in s.world.orders {
      assert OrderOk(s.world, o);
    }
    if HasShipment(s.world.shipments, o) {
      assert RowOk(s.published, FindShipment(s.world.shipments, o).value);
    }
    if Said(s.published, STOCK_RESERVED, o) {
      var e :| e in s.published && TypeOf(e) == STOCK_RESERVED && e.order == o;
      assert Voiced(s, e);
    }
  }

  /** Item by item, an event says what the stored lines say. */
  predicate SameItems(items: seq<Item>, lines: seq<Line>) {
    && |items| == |lines|
    && forall i | 0 <= i < |lines| :: items[i].product == lines[i].product && items[i].quantity == lines[i].quantity
  }

  /** The order service's lines, the event payload and the reservation rows always agree. */
  lemma CrossServiceAgreement(acts: seq<Action>, o: int, p: int)
    requires o in Exec(QUIET, acts).world.stock.held
    ensures var s := Exec(QUIET, acts);
            && o in s.world.orders
            && s.world.stock.held[o].Keys == (set l | l in s.world.orders[o].lines :: l.product)
            && (p in s.world.stock.held[o] ==> s.world.stock.held[o][p] == Bought(s.world.orders[o].lines, p) > 0)
  {
    RunInv(acts);
    var s := Exec(QUIET, acts);
    assert HeldAgrees(s.world, o) && OrderOk(s.world, o);
    var lines := s.world.orders[o].lines;
    PayloadPositive(lines);
    WantedIsBasket(lines);
    DemandPositive(Payload(lines), p);
  }

  /** Whatever is announced about an order's customer, total and items is what is stored. */
  lemma AnnouncedAsStored(acts: seq<Action>, e: Event)
    requires e in Exec(QUIET, acts).published
    ensures var orders := Exec(QUIET, acts).world.orders;
            && (e.OrderCreated? ==>
                  && e.order in orders && SameItems(e.items, orders[e.order].lines)
                  && e.customer == orders[e.order].customer && e.total == orders[e.order].total)
            && (e.OrderCancelled? ==> e.order in orders && e.customer == orders[e.order].customer)
            && (e.StockReserved? ==> e.order in orders && SameItems(e.items, orders[e.order].lines))
            && (e.StockReleased? ==>
                  e.order in orders && e.products == set l | l in orders[e.order].lines :: l.product)
  {
    RunInv(acts);
    assert Voiced(Exec(QUIET, acts), e);
  }

  /** Stock is conserved and never oversold in any at-least-once run. */
  lemma StockSafety(acts: seq<Action>, p: int)
    requires p in Exec(QUIET, acts).world.created
    ensures var w := Exec(QUIET, acts).world;
            && p in w.stock.available && 0 <= w.stock.available[p]
            && w.stock.available[p] + HeldTotal(w.stock.held, p) == w.created[p]
  {
    RunInv(acts);
  }

  /** An order's recorded total is the price of its lines, and no run ever marks it delivered. */
  lemma OrderTotals(acts: seq<Action>, o: int)
    requires o in Exec(QUIET, acts).world.orders
    ensures var order := Exec(QUIET, acts).world.orders[o];
            order.total == Total(order.lines) && order.status != Delivered
  {
    RunInv(acts);
    assert OrderOk(Exec(QUIET, acts).world, o);
  }

  /** One shipment per order, with ids and tracking numbers never shared between rows. */
  lemma ShipmentsDistinct(acts: seq<Action>, i: nat, j: nat)
    requires i < j < |Exec(QUIET, acts).world.shipments|
    ensures var rows := Exec(QUIET, acts).world.shipments;
            rows[i].order != rows[j].order && rows[i].id != rows[j].id && rows[i].tracking != rows[j].tracking
  {
    RunInv(acts);
    var s := Exec(QUIET, acts);
    var rows := s.world.shipments;
    assert RowOk(s.published, rows[i]) && RowOk(s.published, rows[j]);
    var y: nat, y': nat :| rows[i].tracking == TrackingNumber(y, rows[i].id) &&
                           rows[j].tracking == TrackingNumber(y', rows[j].id);
    if rows[i].tracking == rows[j].tracking {
      TrackingInjective(y, rows[i].id, y', rows[j].id);
    }
  }

  lemma StepKeepsRows(s: Mesh, a: Action)
    ensures RowsGrow(s.world.shipments, Apply(s, a).world.shipments)
  {
    if Enabled(s, a) {
      if a.Commit? {
        HandleKeepsRows(a.x.copy.queue, a.x.copy.event, s.world, a.env);
      } else if !a.MarkShipment? {
        ShipmentsUntouched(s, a);
      }
    }
  }

  lemma ShipmentsUntouched(s: Mesh, a: Action)
    requires Enabled(s, a) && !a.Commit? && !a.MarkShipment?
    ensures Step(s, a).world.shipments == s.world.shipments
  {
    if a.WriteCancel? || a.NewProduct? || a.NewOrder? {
      assert Step(s, a).world.shipments == s.world.shipments;
    } else {
      DatabasesUntouched(s, a);
    }
  }

  lemma HandleKeepsRows(q: Queue, e: Event, w: World, env: Env)
    ensures RowsGrow(w.shipments, Handle(q, e, w, env).world.shipments)
  {
  }

  /** Once made, a shipment keeps its id, order, courier and tracking number whatever happens next. */
  lemma {:induction false} TrackingNeverChanges(s: Mesh, acts: seq<Action>, i: nat)
    requires i < |s.world.shipments|
    ensures i < |Exec(s, acts).world.shipments| && SameRow(s.world.shipments[i], Exec(s, acts).world.shipments[i])
  {
    if acts != [] {
      var n := |acts| - 1;
      TrackingNeverChanges(s, acts[..n], i);
      StepKeepsRows(Exec(s, acts[..n]), acts[n]);
    }
  }

  // ----- announcements survive crashes -----

  /** This copy, once handled, leads to an event of type `r` about `o`. */
  predicate Vouches(y: Slot, q: Queue, t: EventType, o: int, r: EventType) {
    && y.copy.queue == q && TypeOf(y.copy.event) == t && y.copy.event.order == o
    && match y.place {
         case Committed(Some(e)) => TypeOf(e) == r && e.order == o
         case Committed(None) => false
         case Announced => false
         case Requeued => false
         case _ => true
       }
  }

  ghost predicate Vouched(s: Mesh, q: Queue, t: EventType, o: int, r: EventType) {
    Said(s.published, r, o) || exists y :: y in s.slots && Vouches(y, q, t, o, r)
  }

  /** Provided the handler, if it commits now, announces the right thing, the voucher survives the step. */
  lemma VouchedLater(s: Mesh, a: Action, q: Queue, t: EventType, o: int, r: EventType)
    requires Faithful(s) && Enabled(s, a) && Vouched(s, q, t, o, r)
    requires a.Commit? && a.x.copy.queue == q && TypeOf(a.x.copy.event) == t && a.x.copy.event.order == o ==>
               var out := Handle(q, a.x.copy.event, s.world, a.env).out;
               out.Some? && TypeOf(out.value) == r && out.value.order == o
    ensures Vouched(Step(s, a), q, t, o, r)
  {
    var s1 := Step(s, a);
    HistoryGrows(s, a);
    if Said(s.published, r, o) {
      SaidLater(s.published, s1.published, r, o);
    } else {
      var y :| y in s.slots && Vouches(y, q, t, o, r);
      if OnSlot(a) && a.x == y {
        VoucherMoves(s, a, q, t, o, r);
      } else {
        Stays(s, a, y);
      }
    }
  }

  lemma VoucherMoves(s: Mesh, a: Action, q: Queue, t: EventType, o: int, r: EventType)
    requires Faithful(s) && Enabled(s, a) && OnSlot(a) && Vouches(a.x, q, t, o, r)
    requires a.Commit? ==>
               var out := Handle(q, a.x.copy.event, s.world, a.env).out;
               out.Some? && TypeOf(out.value) == r && out.value.order == o
    ensures Vouched(Step(s, a), q, t, o, r)
  {
    Moves(s, a);
    assert FaithfulCopy(s, a.x.copy);
    if a.Publish? {
      var e := a.x.place.out.value;
      assert e in Step(s, a).published;
    } else if a.Republish? {
      RetryIsQueued(s, a.x, q);
      assert Vouches(Slot(NextTry(a.x.copy, q), Ready), q, t, o, r);
    } else {
      assert Vouches(Slot(a.x.copy, NextPlace(s, a).value), q, t, o, r);
    }
  }

  ghost predicate Announces(s: Mesh) {
    && (forall o | o in s.world.stock.held :: Vouched(s, InventoryQ, ORDER_CREATED, o, STOCK_RESERVED))
    && (forall o | HasShipment(s.world.shipments, o) :: Vouched(s, ShippingQ, STOCK_RESERVED, o, SHIPMENT_CREATED))
  }

  lemma StepAnnouncesStock(s: Mesh, a: Action, o: int)
    requires Inv(s) && Enabled(s, a) && Announces(s) && o in Step(s, a).world.stock.held
    ensures Vouched(Step(s, a), InventoryQ, ORDER_CREATED, o, STOCK_RESERVED)
  {
    if o !in s.world.stock.held {
      OnlyReservingHolds(s, a, o);
    }
    if a.Commit? && a.x.copy.queue == InventoryQ && a.x.copy.event.OrderCreated? && a.x.copy.event.order == o {
      ReservingSpeaks(s, a.x, a.env, o);
    }
    if o in s.world.stock.held {
      VouchedLater(s, a, InventoryQ, ORDER_CREATED, o, STOCK_RESERVED);
    } else {
      Moves(s, a);
      assert Vouches(Slot(a.x.copy, NextPlace(s, a).value), InventoryQ, ORDER_CREATED, o, STOCK_RESERVED);
    }
  }

  lemma StepAnnouncesShipment(s: Mesh, a: Action, o: int)
    requires Inv(s) && Enabled(s, a) && Announces(s) && HasShipment(Step(s, a).world.shipments, o)
    ensures Vouched(Step(s, a), ShippingQ, STOCK_RESERVED, o, SHIPMENT_CREATED)
  {
    if a.Commit? && a.x.copy.queue == ShippingQ && a.x.copy.event.StockReserved? {
      ShippingSpeaks(a.x.copy.event, s.world, a.env);
    }
    if HasShipment(s.world.shipments, o) {
      VouchedLater(s, a, ShippingQ, STOCK_RESERVED, o, SHIPMENT_CREATED);
    } else {
      OnlyShippingShips(s, a, o);
      Moves(s, a);
      assert Vouches(Slot(a.x.copy, NextPlace(s, a).value), ShippingQ, STOCK_RESERVED, o, SHIPMENT_CREATED);
    }
  }

  lemma OnlyShippingShips(s: Mesh, a: Action, o: int)
    requires Enabled(s, a) && HasShipment(Step(s, a).world.shipments, o) && !HasShipment(s.world.shipments, o)
    ensures a.Commit? && a.x.copy.queue == ShippingQ && a.x.copy.event.StockReserved? && a.x.copy.event.order == o
  {
    var rows, rows1 := s.world.shipments, Step(s, a).world.shipments;
    assert FindShipment(rows1, o).value !in rows;
  }

  lemma ShippingSpeaks(e: Event, w: World, env: Env)
    requires e.StockReserved?
    ensures var out := Handle(ShippingQ, e, w, env).out;
            out.Some? && TypeOf(out.value) == SHIPMENT_CREATED && out.value.order == e.order
  {
  }

  lemma OnlyReservingHolds(s: Mesh, a: Action, o: int)
    requires Enabled(s, a) && o in Step(s, a).world.stock.held && o !in s.world.stock.held
    ensures a.Commit? && a.x.copy.queue == InventoryQ && a.x.copy.event.OrderCreated? && a.x.copy.event.order == o
  {
  }

  lemma ReservingSpeaks(s: Mesh, x: Slot, env: Env, o: int)
    requires Inv(s) && Enabled(s, Commit(x, env)) && x.copy.queue == InventoryQ
    requires x.copy.event.OrderCreated? && x.copy.event.order == o
    requires o in s.world.stock.held || o in Step(s, Commit(x, env)).world.stock.held
    ensures var out := Handle(InventoryQ, x.copy.event, s.world, env).out;
            out.Some? && TypeOf(out.value) == STOCK_RESERVED && out.value.order == o
  {
    HandledIsJustified(s, x);
    CreatedKeepsWorld(s.world, s.published, o, x.copy.event.items);
  }

  lemma {:induction false} RunAnnounces(acts: seq<Action>)
    ensures Announces(Exec(QUIET, acts))
  {
    if acts != [] {
      var n := |acts| - 1;
      var s := Exec(QUIET, acts[..n]);
      RunAnnounces(acts[..n]);
      RunInv(acts[..n]);
      if Enabled(s, acts[n]) {
        forall o | o in Step(s, acts[n]).world.stock.held
          ensures Vouched(Step(s, acts[n]), InventoryQ, ORDER_CREATED, o, STOCK_RESERVED)
        {
          StepAnnouncesStock(s, acts[n], o);
        }
        forall o | HasShipment(Step(s, acts[n]).world.shipments, o)
          ensures Vouched(Step(s, acts[n]), ShippingQ, STOCK_RESERVED, o, SHIPMENT_CREATED)
        {
          StepAnnouncesShipment(s, acts[n], o);
        }
      }
    }
  }

  /**
   * A crash never silences a committed step: a reservation whose StockReserved is not out still has
   * an OrderCreated copy in inventory's queue or its dead letters, and likewise for shipments.
   */
  lemma CrashSafeAnnouncement(acts: seq<Action>, o: int)
    ensures var s := Exec(QUIET, acts);
            o in s.world.stock.held ==>
              || Said(s.published, STOCK_RESERVED, o)
              || exists y :: y in s.slots && y.copy.queue == InventoryQ && TypeOf(y.copy.event) == ORDER_CREATED
                             && y.copy.event.order == o && y.place !in {Announced, Requeued, Committed(None)}
    ensures var s := Exec(QUIET, acts);
            HasShipment(s.world.shipments, o) ==>
              || Said(s.published, SHIPMENT_CREATED, o)
              || exists y :: y in s.slots && y.copy.queue == ShippingQ && TypeOf(y.copy.event) == STOCK_RESERVED
                             && y.copy.event.order == o && y.place !in {Announced, Requeued, Committed(None)}
  {
    RunAnnounces(acts);
    var s := Exec(QUIET, acts);
    if o in s.world.stock.held {
      VoucherIsACopy(s, InventoryQ, ORDER_CREATED, o, STOCK_RESERVED);
    }
    if HasShipment(s.world.shipments, o) {
      VoucherIsACopy(s, ShippingQ, STOCK_RESERVED, o, SHIPMENT_CREATED);
    }
  }

  lemma VoucherIsACopy(s: Mesh, q: Queue, t: EventType, o: int, r: EventType)
    requires Vouched(s, q, t, o, r)
    ensures || Said(s.published, r, o)
            || exists y :: y in s.slots && y.copy.queue == q && TypeOf(y.copy.event) == t
                           && y.copy.event.order == o && y.place !in {Announced, Requeued, Committed(None)}
  {
    if !Said(s.published, r, o) {
      var y :| y in s.slots && Vouches(y, q, t, o, r);
      assert y.place !in {Announced, Requeued, Committed(None)};
    }
  }
}
