/** The shipping service: one shipment row per order, announced on every delivery. */
module ShippingService {
  import opened Domain
  import opened Numerals
  import opened Saga
  import opened RedisCache

  class Service {
    var rows: seq<Shipment>
    var nextId: nat
    var outbox: seq<Event>
    const cache: Cache

    predicate Valid()
      reads this
    {
      forall r | r in rows :: r.id < nextId
    }

    constructor (cache: Cache)
      ensures Valid() && rows == [] && outbox == [] && this.cache == cache
    {
      rows, nextId, outbox, this.cache := [], 1, [], cache;
    }

    /** Idempotent per order; the tracking number is filled in once the row has its id. */
    method CreateShipment(o: int, year: nat, courier: string) returns (shipment: Shipment)
      requires Valid()
      modifies this`rows, this`nextId
      ensures Valid() && FreshId(old(rows), old(nextId))
      ensures rows == Saga.CreateShipment(old(rows), o, Env(old(nextId), year, courier))
      ensures shipment == ShipmentFor(old(rows), o, Env(old(nextId), year, courier)) && shipment in rows
      ensures shipment.order == o
      ensures (exists r :: r in old(rows) && r.order == o) ==> rows == old(rows)
      ensures (forall r | r in old(rows) :: r.order != o) ==>
                && rows == old(rows) + [shipment] && shipment.id == old(nextId)
                && shipment.status == ShipmentMade && shipment.courier == courier
                && Parse(shipment.tracking) == Some((year, shipment.id))
    {
      ParseTracking(year, nextId);
      var existing := FindShipment(rows, o);
      if existing.Some? {
        return existing.value;
      }
      shipment := Shipment(nextId, o, "", courier, ShipmentMade);
      nextId := nextId + 1;
      shipment := shipment.(tracking := TrackingNumber(year, shipment.id));
      rows := rows + [shipment];
    }

    method OnStockReserved(o: int, items: seq<Item>, year: nat, courier: string)
      requires Valid()
      modifies this
      ensures Valid()
      ensures forall w: World | w.shipments == old(rows) ::
                var r := Handle(ShippingQ, StockReserved(o, items), w, Env(old(nextId), year, courier));
                r.world == w.(shipments := rows) && r.out.Some? && outbox == old(outbox) + [r.out.value]
      ensures exists r ::
                && r in rows && r.order == o
                && outbox == old(outbox) + [ShipmentCreated(o, r.id, r.tracking, r.courier)]
      ensures (exists r :: r in old(rows) && r.order == o) ==> rows == old(rows)
      ensures (forall r | r in old(rows) :: r.order != o) ==>
                && |rows| == |old(rows)| + 1 && rows[..|old(rows)|] == old(rows)
                && var r := rows[|old(rows)|];
                && r.order == o && r.status == ShipmentMade && r.courier == courier
                && Parse(r.tracking) == Some((year, r.id))
    {
      var shipment := CreateShipment(o, year, courier);
      outbox := outbox + [ShipmentCreated(o, shipment.id, shipment.tracking, shipment.courier)];
    }

    /** Any status may follow any other; id, order, courier and tracking number stay. */
    method UpdateStatus(i: nat, status: ShipmentStatus)
      requires Valid() && i < |rows|
      modifies this`rows, cache`entries
      ensures Valid() && rows == old(rows)[i := old(rows)[i].(status := status)]
      ensures cache.entries ==
              if cache.reachable then old(cache.entries) - {ShipmentKey(old(rows)[i].id)} else old(cache.entries)
    {
      rows := rows[i := rows[i].(status := status)];
      cache.Invalidate({ShipmentKey(rows[i].id)});
    }

    /** The status endpoint: an unknown shipment is refused, a delivered one is announced. */
    method RequestStatus(id: nat, status: ShipmentStatus) returns (found: bool)
      requires Valid()
      modifies this`rows, this`outbox, cache`entries
      ensures Valid() && (found <==> exists r :: r in old(rows) && r.id == id)
      ensures !found ==> rows == old(rows) && outbox == old(outbox) && cache.entries == old(cache.entries)
      ensures found ==> exists i: nat ::
                && i < |old(rows)| && old(rows)[i].id == id
                && rows == old(rows)[i := old(rows)[i].(status := status)]
                && outbox == old(outbox) +
                     if status == Arrived then [ShipmentDelivered(old(rows)[i].order, old(rows)[i].tracking)] else []
      ensures found ==>
                cache.entries == if cache.reachable then old(cache.entries) - {ShipmentKey(id)} else old(cache.entries)
    {
      found := exists i: nat :: i < |rows| && rows[i].id == id;
      if found {
        var i: nat :| i < |rows| && rows[i].id == id;
        var shipment := rows[i];
        UpdateStatus(i, status);
        if status == Arrived {
          outbox := outbox + [ShipmentDelivered(shipment.order, shipment.tracking)];
        }
      }
    }
  }
}
