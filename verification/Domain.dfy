/** The vocabulary shared by every service: entities, events and the topology of the exchange. */
module Domain {

  datatype Option<+T> = None | Some(value: T)

  /** One entry of an event's `items` payload. */
  datatype Item = Item(product: int, quantity: int)

  /** One stored order line; prices are whole cents. */
  datatype Line = Line(product: int, quantity: int, price: int)

  datatype Status = Pending | Confirmed | Shipped | Delivered | Cancelled

  datatype Order = Order(customer: int, total: int, status: Status, lines: seq<Line>)

  datatype ShipmentStatus = ShipmentMade | PickedUp | InTransit | Arrived

  datatype Shipment = Shipment(id: nat, order: int, tracking: string, courier: string, status: ShipmentStatus)

  /** A payload the order API accepts: at least one line, positive quantities and prices. */
  predicate ValidLines(lines: seq<Line>) {
    lines != [] && forall l | l in lines :: 0 < l.quantity && 0 < l.price
  }

  function Total(lines: seq<Line>): int {
    if lines == [] then 0
    else Total(lines[..|lines| - 1]) + lines[|lines| - 1].price * lines[|lines| - 1].quantity
  }

  /** Units of one product an order buys, over all its lines. */
  function Bought(lines: seq<Line>, p: int): int {
    if lines == [] then 0
    else (if lines[0].product == p then lines[0].quantity else 0) + Bought(lines[1..], p)
  }

  /** What an order tells the other services about its lines: the price stays behind. */
  function Payload(lines: seq<Line>): (items: seq<Item>) {
    seq(|lines|, i requires 0 <= i < |lines| => Item(lines[i].product, lines[i].quantity))
  }

  datatype EventType =
    | ORDER_CREATED | ORDER_CANCELLED | STOCK_RESERVED | STOCK_UNAVAILABLE
    | STOCK_RELEASED | SHIPMENT_CREATED | SHIPMENT_DELIVERED

  datatype Event =
    | OrderCreated(order: int, customer: int, total: int, items: seq<Item>)
    | OrderCancelled(order: int, customer: int)
    | StockReserved(order: int, items: seq<Item>)
    | StockUnavailable(order: int)
    | StockReleased(order: int, products: set<int>)
    | ShipmentCreated(order: int, shipment: nat, tracking: string, courier: string)
    | ShipmentDelivered(order: int, tracking: string)

  /** What is announced about a new order. */
  function Placed(o: int, customer: int, lines: seq<Line>): Event {
    OrderCreated(o, customer, Total(lines), Payload(lines))
  }

  /** The routing key an event is published under. */
  function TypeOf(e: Event): EventType {
    match e
    case OrderCreated(_, _, _, _) => ORDER_CREATED
    case OrderCancelled(_, _) => ORDER_CANCELLED
    case StockReserved(_, _) => STOCK_RESERVED
    case StockUnavailable(_) => STOCK_UNAVAILABLE
    case StockReleased(_, _) => STOCK_RELEASED
    case ShipmentCreated(_, _, _, _) => SHIPMENT_CREATED
    case ShipmentDelivered(_, _) => SHIPMENT_DELIVERED
  }

  datatype Queue = OrderQ | InventoryQ | ShippingQ | NotificationQ

  /** The queues the exchange copies an event to; keys contain no wildcard, so matching is equality. */
  function Bound(t: EventType): seq<Queue> {
    match t
    case ORDER_CREATED => [InventoryQ, NotificationQ]
    case ORDER_CANCELLED => [InventoryQ]
    case STOCK_RESERVED => [OrderQ, ShippingQ, NotificationQ]
    case STOCK_UNAVAILABLE => [OrderQ]
    case STOCK_RELEASED => []
    case SHIPMENT_CREATED => [OrderQ, NotificationQ]
    case SHIPMENT_DELIVERED => [NotificationQ]
  }

  /** A total is the sum of price times quantity, however the lines are split up. */
  lemma {:induction false} TotalAdds(a: seq<Line>, b: seq<Line>, l: Line)
    ensures Total([]) == 0 && Total([l]) == l.price * l.quantity
    ensures Total(a + b) == Total(a) + Total(b)
  {
    assert [l][..0] == [];
    if b == [] {
      assert a + b == a;
    } else {
      var n := |b| - 1;
      TotalAdds(a, b[..n], l);
      assert (a + b)[..|a| + n] == a + b[..n];
    }
  }

  /** Likewise for what is bought of a product. */
  lemma {:induction false} BoughtAdds(a: seq<Line>, b: seq<Line>, l: Line, p: int)
    ensures Bought([], p) == 0 && Bought([l], p) == if l.product == p then l.quantity else 0
    ensures Bought(a + b, p) == Bought(a, p) + Bought(b, p)
  {
    if a == [] {
      assert a + b == b;
    } else {
      BoughtAdds(a[1..], b, l, p);
      assert (a + b)[1..] == a[1..] + b;
    }
  }
}
