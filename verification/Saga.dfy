/** The three databases and what each service's handler does to them, one committed transaction per event. */
module Saga {
  import opened Domain
  import opened Allocation
  import opened Numerals

  /** `created` and `granted` are history: stock per product at creation, orders some claim succeeded for. */
  datatype World = World(
    orders: map<int, Order>,
    stock: Store,
    shipments: seq<Shipment>,
    created: map<int, int>,
    granted: set<int>)

  const NOTHING := World(map[], EMPTY, [], map[], {})

  /** What the shipping handler gets from outside: the next row id, the year and a courier. */
  datatype Env = Env(id: nat, year: nat, courier: string)

  datatype Effect = Effect(world: World, out: Option<Event>)

  function SetStatus(orders: map<int, Order>, o: int, status: Status): map<int, Order> {
    if o !in orders || orders[o].status == status then orders
    else orders[o := orders[o].(status := status)]
  }

  function FindShipment(rows: seq<Shipment>, o: int): (r: Option<Shipment>)
    ensures r.Some? ==> r.value in rows && r.value.order == o
    ensures r.None? ==> forall x | x in rows :: x.order != o
  {
    if rows == [] then None
    else if rows[0].order == o then Some(rows[0])
    else FindShipment(rows[1..], o)
  }

  predicate HasShipment(rows: seq<Shipment>, o: int) {
    FindShipment(rows, o).Some?
  }

  predicate FreshId(rows: seq<Shipment>, id: nat) {
    forall x | x in rows :: x.id != id
  }

  /** Some id no row has yet. */
  function NextId(rows: seq<Shipment>): (id: nat)
    ensures FreshId(rows, id) && forall r | r in rows :: r.id < id
  {
    if rows == [] then 0
    else
      var rest := NextId(rows[1..]);
      if rows[0].id < rest then rest else rows[0].id + 1
  }

  function NewShipment(o: int, env: Env): Shipment {
    Shipment(env.id, o, TrackingNumber(env.year, env.id), env.courier, ShipmentMade)
  }

  function CreateShipment(rows: seq<Shipment>, o: int, env: Env): seq<Shipment> {
    if HasShipment(rows, o) then rows else rows + [NewShipment(o, env)]
  }

  /** The shipment the handler announces, created now or found. */
  function ShipmentFor(rows: seq<Shipment>, o: int, env: Env): Shipment {
    if HasShipment(rows, o) then FindShipment(rows, o).value else NewShipment(o, env)
  }

  /** What is announced about an order a client cancels. */
  function Cancellation(orders: map<int, Order>, o: int): Event
    requires o in orders
  {
    OrderCancelled(o, orders[o].customer)
  }

  function OnOrderCreated(w: World, o: int, items: seq<Item>): Effect {
    var r := Reserve(w.stock, o, items);
    if r.ok then Effect(w.(stock := r.store, granted := w.granted + {o}), Some(StockReserved(o, items)))
    else Effect(w.(stock := r.store), Some(StockUnavailable(o)))
  }

  function OnOrderCancelled(w: World, o: int): Effect {
    var r := Release(w.stock, o);
    Effect(w.(stock := r.store), if r.ok then Some(StockReleased(o, w.stock.held[o].Keys)) else None)
  }

  function OnReservedForShipping(w: World, o: int, env: Env): Effect {
    var s := ShipmentFor(w.shipments, o, env);
    Effect(w.(shipments := CreateShipment(w.shipments, o, env)), Some(ShipmentCreated(o, s.id, s.tracking, s.courier)))
  }

  function MarkRow(w: World, i: nat, status: ShipmentStatus): World
    requires i < |w.shipments|
  {
    w.(shipments := w.shipments[i := w.shipments[i].(status := status)])
  }

  /** What is announced when a shipment is marked delivered. */
  function Arrival(r: Shipment): Event {
    ShipmentDelivered(r.order, r.tracking)
  }

  /** One event handled by the consumer of one queue: its database effect and the event it announces. */
  function Handle(q: Queue, e: Event, w: World, env: Env): Effect {
    match (q, e)
    case (InventoryQ, OrderCreated(o, _, _, items)) => OnOrderCreated(w, o, items)
    case (InventoryQ, OrderCancelled(o, _)) => OnOrderCancelled(w, o)
    case (ShippingQ, StockReserved(o, _)) => OnReservedForShipping(w, o, env)
    case (OrderQ, StockReserved(o, _)) => Effect(w.(orders := SetStatus(w.orders, o, Confirmed)), None)
    case (OrderQ, StockUnavailable(o)) => Effect(w.(orders := SetStatus(w.orders, o, Cancelled)), None)
    case (OrderQ, ShipmentCreated(o, _, _, _)) => Effect(w.(orders := SetStatus(w.orders, o, Shipped)), None)
    case _ => Effect(w, None)
  }

  /** The guard of the cancel endpoint. */
  predicate Cancellable(orders: map<int, Order>, o: int) {
    o in orders && orders[o].status !in {Shipped, Delivered, Cancelled}
  }

  function PlaceOrder(orders: map<int, Order>, o: int, customer: int, lines: seq<Line>): map<int, Order> {
    orders[o := Order(customer, Total(lines), Pending, lines)]
  }

  function AddProduct(w: World, p: int, q: int): World {
    w.(stock := w.stock.(available := w.stock.available[p := q]), created := w.created[p := q])
  }

  function AddOrder(w: World, o: int, customer: int, lines: seq<Line>): World {
    w.(orders := PlaceOrder(w.orders, o, customer, lines))
  }
}
