/** The order service: its rows, its cache, and the events it hands to the broker. */
module OrderService {
  import opened Domain
  import opened Numerals
  import opened Saga
  import opened CacheAside
  import opened RedisCache

  datatype CancelReply = Done | Missing | Conflict

  class Service {
    var orders: map<int, Order>
    var nextId: int
    var outbox: seq<Event>
    const cache: Cache

    /** Ids come from a sequence that is always ahead of the rows. */
    predicate Valid()
      reads this
    {
      forall o | o in orders :: o < nextId
    }

    constructor (cache: Cache)
      ensures Valid() && orders == map[] && outbox == [] && this.cache == cache
    {
      orders, nextId, outbox, this.cache := map[], 1, [], cache;
    }

    method CreateOrder(customer: int, lines: seq<Line>) returns (o: int)
      requires Valid() && ValidLines(lines)
      modifies this`orders, this`nextId, this`outbox
      ensures Valid() && o !in old(orders)
      ensures orders == PlaceOrder(old(orders), o, customer, lines)
      ensures outbox == old(outbox) + [Placed(o, customer, lines)]
      ensures orders == old(orders)[o := Order(customer, Total(lines), Pending, lines)]
      ensures |outbox| == |old(outbox)| + 1 && outbox[..|old(outbox)|] == old(outbox)
      ensures var e := outbox[|old(outbox)|];
              && e.OrderCreated? && e.order == o && e.customer == customer && e.total == Total(lines)
              && |e.items| == |lines|
              && forall i | 0 <= i < |lines| ::
                   e.items[i].product == lines[i].product && e.items[i].quantity == lines[i].quantity
    {
      o := nextId;
      nextId := nextId + 1;
      orders := orders[o := Order(customer, Total(lines), Pending, lines)];
      outbox := outbox + [OrderCreated(o, customer, orders[o].total, Payload(orders[o].lines))];
    }

    /** Applies a status; an absent order or an equal status changes neither row nor cache. */
    method SetStatus(o: int, status: Status)
      requires Valid()
      modifies this`orders, cache`entries
      ensures Valid() && orders == Saga.SetStatus(old(orders), o, status)
      ensures orders.Keys == old(orders).Keys
      ensures forall x | x in orders ::
                orders[x] == if x == o then old(orders)[x].(status := status) else old(orders)[x]
      ensures cache.entries ==
              if cache.reachable && o in old(orders) && old(orders)[o].status != status
              then old(cache.entries) - {OrderKey(o)} else old(cache.entries)
    {
      if o !in orders || orders[o].status == status {
        return;
      }
      orders := orders[o := orders[o].(status := status)];
      cache.Invalidate({OrderKey(o)});
    }

    method Cancel(o: int)
      requires Valid() && o in orders
      modifies this`orders, this`outbox, cache`entries
      ensures Valid() && orders == Saga.SetStatus(old(orders), o, Cancelled)
      ensures orders == old(orders)[o := old(orders)[o].(status := Cancelled)]
      ensures outbox == old(outbox) + [OrderCancelled(o, old(orders)[o].customer)]
      ensures cache.entries == if cache.reachable then old(cache.entries) - {OrderKey(o)} else old(cache.entries)
    {
      orders := orders[o := orders[o].(status := Cancelled)];
      cache.Invalidate({OrderKey(o)});
      outbox := outbox + [OrderCancelled(o, orders[o].customer)];
    }

    /** The cancel endpoint: absent or foreign orders look the same; finished ones are refused. */
    method RequestCancel(o: int, who: Identity) returns (reply: CancelReply)
      requires Valid()
      modifies this`orders, this`outbox, cache`entries
      ensures Valid()
      ensures reply == Missing <==> UncachedOrder(old(orders), o, who) == NotFound
      ensures reply == Done <==> UncachedOrder(old(orders), o, who) != NotFound && Cancellable(old(orders), o)
      ensures reply == Missing <==> o !in old(orders) || (!who.admin && old(orders)[o].customer != who.user)
      ensures reply == Done <==>
                && o in old(orders) && (who.admin || old(orders)[o].customer == who.user)
                && old(orders)[o].status in {Pending, Confirmed}
      ensures o in old(orders) && old(orders)[o].status in {Shipped, Delivered, Cancelled} ==> reply != Done
      ensures reply == Done ==>
                && orders == old(orders)[o := old(orders)[o].(status := Cancelled)]
                && outbox == old(outbox) + [OrderCancelled(o, old(orders)[o].customer)]
      ensures reply == Done ==>
                cache.entries == if cache.reachable then old(cache.entries) - {OrderKey(o)} else old(cache.entries)
      ensures reply != Done ==> orders == old(orders) && outbox == old(outbox) && cache.entries == old(cache.entries)
    {
      if o !in orders {
        return Missing;
      }
      if !who.admin && orders[o].customer != who.user {
        return Missing;
      }
      if orders[o].status == Shipped || orders[o].status == Delivered || orders[o].status == Cancelled {
        return Conflict;
      }
      Cancel(o);
      reply := Done;
    }

    /** The read endpoint, cache first; a miss that finds the row stores it. */
    method GetOrder(o: int, who: Identity) returns (r: Response)
      requires Valid()
      modifies cache`entries
      ensures r == ReadOrder(orders, old(cache.Visible()), o, who)
      ensures cache.Visible() == if cache.reachable then AfterOrderRead(orders, old(cache.entries), o, who) else map[]
      ensures r.Found? && r.entry.OrderEntry? ==> who.admin || r.entry.order.customer == who.user
      ensures OrderKey(o) !in old(cache.Visible()) ==>
                && (r == NotFound <==> o !in orders || (!who.admin && orders[o].customer != who.user))
                && (r != NotFound ==> r == Found(OrderEntry(o, orders[o])))
      ensures OrderKey(o) in old(cache.Visible()) && old(cache.Visible())[OrderKey(o)].OrderEntry? ==>
                var e := old(cache.Visible())[OrderKey(o)];
                r == if !who.admin && e.order.customer != who.user then NotFound else Found(e)
      ensures cache.entries ==
              if cache.reachable && OrderKey(o) !in old(cache.entries) && r != NotFound
              then old(cache.entries)[OrderKey(o) := OrderEntry(o, orders[o])] else old(cache.entries)
    {
      var cached := cache.GetJson(OrderKey(o));
      if cached.Some? {
        if !cached.value.OrderEntry? {
          return Broken;
        }
        if !who.admin && cached.value.order.customer != who.user {
          return NotFound;
        }
        return Found(cached.value);
      }
      if o !in orders {
        return NotFound;
      }
      if !who.admin && orders[o].customer != who.user {
        return NotFound;
      }
      r := Found(OrderEntry(o, orders[o]));
      cache.SetJson(OrderKey(o), OrderEntry(o, orders[o]));
    }

    /** The queue's handlers: each event type sets one status, anything else is acknowledged untouched. */
    method OnEvent(e: Event)
      requires Valid()
      modifies this`orders, cache`entries
      ensures Valid()
      ensures forall w: World, env | w.orders == old(orders) ::
                Handle(OrderQ, e, w, env) == Effect(w.(orders := orders), None)
      ensures orders.Keys == old(orders).Keys && forall x | x in orders && x != e.order :: orders[x] == old(orders)[x]
      ensures e.order in old(orders) ==>
                orders[e.order] ==
                if e.StockReserved? then old(orders)[e.order].(status := Confirmed)
                else if e.StockUnavailable? then old(orders)[e.order].(status := Cancelled)
                else if e.ShipmentCreated? then old(orders)[e.order].(status := Shipped)
                else old(orders)[e.order]
      ensures cache.entries ==
              if cache.reachable && orders != old(orders) then old(cache.entries) - {OrderKey(e.order)}
              else old(cache.entries)
    {
      match e
      case StockReserved(o, _) => SetStatus(o, Confirmed);
      case StockUnavailable(o) => SetStatus(o, Cancelled);
      case ShipmentCreated(o, _, _, _) => SetStatus(o, Shipped);
      case _ =>
    }
  }
}
