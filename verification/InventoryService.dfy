/** The inventory service: product rows, the reservation table, its cache and what it hands to the broker. */
module InventoryService {
  import opened Domain
  import opened Allocation
  import opened Numerals
  import opened Saga
  import opened CacheAside
  import opened RedisCache
  import opened InventoryTable

  datatype Product = Product(about: Label, available: int)

  /** The summed demand per product, in one pass over the items. */
  method Aggregate(items: seq<Item>) returns (wanted: map<int, int>)
    ensures wanted == Wanted(items)
  {
    wanted := map[];
    for i := 0 to |items|
      invariant wanted.Keys == Products(items[..i])
      invariant forall p | p in wanted :: wanted[p] == Demand(items[..i], p)
      invariant forall p | p !in wanted :: Demand(items[..i], p) == 0
    {
      assert items[..i + 1][..i] == items[..i] && items[..i + 1] == items[..i] + [items[i]];
      var p := items[i].product;
      wanted := wanted[p := (if p in wanted then wanted[p] else 0) + items[i].quantity];
    }
    assert items[..|items|] == items;
  }

  function Quantities(products: map<int, Product>): map<int, int> {
    map p | p in products :: products[p].available
  }

  function Labels(products: map<int, Product>): map<int, Label> {
    map p | p in products :: products[p].about
  }

  /** Looks at every wanted product, in any order, before anything is changed. */
  method CheckAll(products: map<int, Product>, wanted: map<int, int>) returns (ok: bool)
    ensures ok == Fits(Quantities(products), wanted)
  {
    var todo := wanted.Keys;
    while exists p :: p in todo
      invariant todo <= wanted.Keys
      invariant forall p | p in wanted && p !in todo :: p in products && wanted[p] <= products[p].available
      decreases |todo|
    {
      var p :| p in todo;
      if p !in products || products[p].available < wanted[p] {
        return false;
      }
      todo := todo - {p};
    }
    ok := true;
  }

  /** One row's quantity changed; a product that is not there is skipped. */
  function Adjusted(products: map<int, Product>, p: int, delta: int): map<int, Product> {
    if p in products then products[p := products[p].(available := products[p].available + delta)] else products
  }

  /** The share of the wanted products dealt with so far. */
  function Part(wanted: map<int, int>, ps: set<int>): map<int, int> {
    map p | p in wanted && p in ps :: wanted[p]
  }

  lemma QuantitiesTaken(products: map<int, Product>, products0: map<int, Product>,
                        wanted: map<int, int>, done: set<int>, p: int)
    requires p in wanted && p !in done && p in products
    requires Quantities(products) == Take(Quantities(products0), Part(wanted, done))
    ensures var products1 := Adjusted(products, p, -wanted[p]);
            Quantities(products1) == Take(Quantities(products0), Part(wanted, done + {p}))
  {
    var products1, part1 := Adjusted(products, p, -wanted[p]), Part(wanted, done + {p});
    assert products.Keys == Quantities(products).Keys == Quantities(products0).Keys;
    forall x | x in products1
      ensures Quantities(products1)[x] == Quantities(products0)[x] - Quantity(part1, x)
    {
      assert Quantities(products)[x] == Quantities(products0)[x] - Quantity(Part(wanted, done), x);
    }
    assert Quantities(products1) == Take(Quantities(products0), part1);
  }

  lemma LabelsStay(products: map<int, Product>, p: int, delta: int)
    ensures Labels(Adjusted(products, p, delta)) == Labels(products)
  {
  }

  lemma PartGrows(wanted: map<int, int>, done: set<int>, p: int)
    requires p in wanted
    ensures Part(wanted, done + {p}) == Part(wanted, done)[p := wanted[p]]
  {
  }

  /** The products in `done` have been decremented; nothing else about the products has changed. */
  predicate Taken(before: map<int, Product>, now: map<int, Product>, wanted: map<int, int>, done: set<int>) {
    && now.Keys == before.Keys && Labels(now) == Labels(before)
    && Quantities(now) == Take(Quantities(before), Part(wanted, done))
  }

  /** The products in `done` have their row; nothing else about the table has changed. */
  predicate Recorded(rows0: seq<Row>, rows: seq<Row>, o: int, wanted: map<int, int>, done: set<int>) {
    && OneRowEach(rows) && HeldBy(rows, o) == Part(wanted, done)
    && OrdersOf(rows) == OrdersOf(rows0) + (if done == {} then {} else {o})
    && forall o' | o' in OrdersOf(rows0) :: HeldBy(rows, o') == HeldBy(rows0, o')
  }

  predicate Booked(before: map<int, Product>, now: map<int, Product>, rows0: seq<Row>, rows: seq<Row>,
                   o: int, wanted: map<int, int>, done: set<int>)
  {
    && Taken(before, now, wanted, done) && Recorded(rows0, rows, o, wanted, done)
    && forall r | r in rows :: r.product in now
  }

  lemma NothingBooked(products: map<int, Product>, rows: seq<Row>, o: int, wanted: map<int, int>)
    requires o !in OrdersOf(rows) && OneRowEach(rows) && forall r | r in rows :: r.product in products
    ensures Booked(products, products, rows, rows, o, wanted, {})
  {
    assert HeldBy(rows, o) == Part(wanted, {});
  }

  lemma TakeOne(before: map<int, Product>, now: map<int, Product>, wanted: map<int, int>, done: set<int>, p: int)
    requires Taken(before, now, wanted, done) && p in wanted && p !in done && p in before
    ensures Taken(before, Adjusted(now, p, -wanted[p]), wanted, done + {p})
  {
    QuantitiesTaken(now, before, wanted, done, p);
    LabelsStay(now, p, -wanted[p]);
  }

  lemma RecordOne(rows0: seq<Row>, rows: seq<Row>, o: int, wanted: map<int, int>, done: set<int>, p: int)
    requires Recorded(rows0, rows, o, wanted, done) && p in wanted && p !in done && o !in OrdersOf(rows0)
    ensures Recorded(rows0, rows + [Row(p, o, wanted[p])], o, wanted, done + {p})
  {
    assert HeldBy(rows, o).Keys == ProductsOf(rows, o);
    HeldAppend(rows, Row(p, o, wanted[p]));
    PartGrows(wanted, done, p);
  }

  lemma BookOne(before: map<int, Product>, now: map<int, Product>, rows0: seq<Row>, rows: seq<Row>,
                o: int, wanted: map<int, int>, done: set<int>, p: int)
    requires Booked(before, now, rows0, rows, o, wanted, done)
    requires p in wanted && p !in done && p in before && o !in OrdersOf(rows0)
    ensures Booked(before, Adjusted(now, p, -wanted[p]), rows0, rows + [Row(p, o, wanted[p])], o, wanted, done + {p})
  {
    TakeOne(before, now, wanted, done, p);
    RecordOne(rows0, rows, o, wanted, done, p);
  }

  lemma AllBooked(before: map<int, Product>, now: map<int, Product>, rows0: seq<Row>, rows: seq<Row>,
                  o: int, wanted: map<int, int>)
    requires Booked(before, now, rows0, rows, o, wanted, wanted.Keys) && o !in OrdersOf(rows0)
    ensures Quantities(now) == Take(Quantities(before), wanted)
    ensures Held(rows) == if wanted == map[] then Held(rows0) else Held(rows0)[o := wanted]
  {
    assert Part(wanted, wanted.Keys) == wanted;
    assert wanted.Keys == {} <==> wanted == map[];
    if wanted == map[] {
      assert OrdersOf(rows) == OrdersOf(rows0);
    } else {
      assert OrdersOf(rows) == OrdersOf(rows0) + {o};
    }
  }

  /** Everything in the table `rows` that belongs to `o` has been put back on top of `before`. */
  predicate Restored(before: map<int, Product>, now: map<int, Product>, rows: seq<Row>, left: seq<Row>, o: int) {
    && now.Keys == before.Keys && Labels(now) == Labels(before)
    && forall p | p in now ::
         now[p].available + RowQuantity(left, o, p) == before[p].available + RowQuantity(rows, o, p)
  }

  /** Putting back the first row that is left. */
  lemma RestoreOne(before: map<int, Product>, now: map<int, Product>, rows: seq<Row>, left: seq<Row>, o: int)
    requires Restored(before, now, rows, left, o) && left != [] && left[0].order == o
    ensures Restored(before, Adjusted(now, left[0].product, left[0].quantity), rows, left[1..], o)
  {
    assert Labels(Adjusted(now, left[0].product, left[0].quantity)) == Labels(now);
  }

  lemma OwnQuantity(rows: seq<Row>, o: int, p: int)
    requires o in OrdersOf(rows)
    ensures RowQuantity(RowsOf(rows, o), o, p) == Quantity(Held(rows)[o], p)
  {
    QuantityOfOwn(rows, o, p);
    if p !in ProductsOf(rows, o) {
      NoRowNoQuantity(rows, o, p);
    }
  }

  lemma OneGivenBack(before: map<int, Product>, now: map<int, Product>, rows: seq<Row>, o: int, p: int)
    requires Restored(before, now, RowsOf(rows, o), [], o) && o in OrdersOf(rows) && p in now
    ensures p in before && now[p].available == before[p].available + Quantity(Held(rows)[o], p)
  {
    OwnQuantity(rows, o, p);
  }

  lemma GivenPerProduct(before: map<int, Product>, now: map<int, Product>, given: map<int, int>)
    requires now.Keys == before.Keys
    requires forall p | p in now :: now[p].available == before[p].available + Quantity(given, p)
    ensures Quantities(now) == Give(Quantities(before), given)
  {
  }

  lemma AllGivenBack(before: map<int, Product>, now: map<int, Product>, rows: seq<Row>, o: int)
    requires Restored(before, now, RowsOf(rows, o), [], o) && o in OrdersOf(rows)
    ensures Quantities(now) == Give(Quantities(before), Held(rows)[o])
  {
    var given := Held(rows)[o];
    forall p | p in now ensures now[p].available == before[p].available + Quantity(given, p) {
      OneGivenBack(before, now, rows, o, p);
    }
    GivenPerProduct(before, now, given);
  }

  /** The session's pending changes of a reservation: one decrement and one new row per product, in any order. */
  method TakeStock(products: map<int, Product>, rows: seq<Row>, o: int, wanted: map<int, int>)
    returns (products1: map<int, Product>, rows1: seq<Row>)
    requires o !in OrdersOf(rows) && OneRowEach(rows) && forall r | r in rows :: r.product in products
    requires wanted.Keys <= products.Keys
    ensures Booked(products, products1, rows, rows1, o, wanted, wanted.Keys)
  {
    products1, rows1 := products, rows;
    var todo := wanted.Keys;
    ghost var done: set<int> := {};
    NothingBooked(products, rows, o, wanted);
    while exists p :: p in todo
      invariant todo <= wanted.Keys && done == wanted.Keys - todo
      invariant Booked(products, products1, rows, rows1, o, wanted, done)
      decreases |todo|
    {
      var p :| p in todo;
      BookOne(products, products1, rows, rows1, o, wanted, done, p);
      products1, rows1 := Adjusted(products1, p, -wanted[p]), rows1 + [Row(p, o, wanted[p])];
      todo, done := todo - {p}, done + {p};
    }
    assert done == wanted.Keys;
  }

  /** The session's pending changes of a release: each row of the order is given back and deleted. */
  method PutBack(products: map<int, Product>, rows: seq<Row>, o: int)
    returns (products1: map<int, Product>, rows1: seq<Row>)
    ensures rows1 == Others(rows, o)
    ensures Restored(products, products1, RowsOf(rows, o), [], o)
  {
    products1, rows1 := products, rows;
    var reservations := RowsOf(rows, o);
    for i := 0 to |reservations|
      invariant RowsOf(rows1, o) == reservations[i..] && Others(rows1, o) == Others(rows, o)
      invariant Restored(products, products1, reservations, reservations[i..], o)
    {
      var r := reservations[i];
      assert reservations[i..][0] == r && reservations[i..][1..] == reservations[i + 1..];
      assert r in RowsOf(rows, o);
      RestoreOne(products, products1, reservations, reservations[i..], o);
      products1 := Adjusted(products1, r.product, r.quantity);
      DeleteFirst(rows1, o);
      rows1 := Delete(rows1, r);
    }
    NoneLeft(rows1, o);
  }

  /** Giving the rows back and deleting them is the specified release. */
  lemma ReleaseMatches(before: map<int, Product>, now: map<int, Product>, rows: seq<Row>, o: int)
    requires Restored(before, now, RowsOf(rows, o), [], o) && o in OrdersOf(rows) && OneRowEach(rows)
    ensures Store(Quantities(now), Held(Others(rows, o))) == Release(Store(Quantities(before), Held(rows)), o).store
    ensures Release(Store(Quantities(before), Held(rows)), o).ok
    ensures OneRowEach(Others(rows, o))
  {
    HeldOthers(rows, o);
    OthersUnique(rows, o);
    AllGivenBack(before, now, rows, o);
  }

  /** An order holds stock if and only if it has rows, and then at least one product. */
  lemma ReservationsAre(rows: seq<Row>, o: int)
    ensures RowsOf(rows, o) == [] <==> o !in OrdersOf(rows)
    ensures (set r | r in RowsOf(rows, o) :: r.product) == ProductsOf(rows, o)
    ensures o in OrdersOf(rows) <==> ProductsOf(rows, o) != {}
  {
    if RowsOf(rows, o) != [] {
      assert RowsOf(rows, o)[0] in RowsOf(rows, o) && RowsOf(rows, o)[0].product in ProductsOf(rows, o);
    } else {
      assert forall r :: r in rows && r.order == o ==> r in RowsOf(rows, o);
    }
  }

  /** The summed demand of every named product is there. */
  predicate Enough(products: map<int, Product>, items: seq<Item>) {
    forall p | p in Products(items) :: p in products && Demand(items, p) <= products[p].available
  }

  lemma FitsIfEnough(products: map<int, Product>, items: seq<Item>)
    ensures Fits(Quantities(products), Wanted(items)) <==> Enough(products, items)
  {
    assert forall p | p in Products(items) :: Wanted(items)[p] == Demand(items, p);
    assert Quantities(products).Keys == products.Keys;
    if Fits(Quantities(products), Wanted(items)) {
      forall p | p in Products(items) ensures p in products && Demand(items, p) <= products[p].available {
        assert p in Wanted(items) && p in Quantities(products);
      }
    }
  }

  lemma EachTaken(before: map<int, Product>, now: map<int, Product>, wanted: map<int, int>)
    requires Taken(before, now, wanted, wanted.Keys)
    ensures forall p | p in now :: now[p].available == before[p].available - Quantity(wanted, p)
  {
    assert Part(wanted, wanted.Keys) == wanted;
    forall p | p in now ensures now[p].available == before[p].available - Quantity(wanted, p) {
      assert Quantities(now)[p] == Take(Quantities(before), wanted)[p];
    }
  }

  lemma SameRows(rows0: seq<Row>, rows: seq<Row>, x: int, p: int)
    requires ProductsOf(rows, x) == ProductsOf(rows0, x) && HeldBy(rows, x) == HeldBy(rows0, x)
    ensures RowQuantity(rows, x, p) == RowQuantity(rows0, x, p)
  {
    if p in ProductsOf(rows, x) {
      assert HeldBy(rows, x)[p] == HeldBy(rows0, x)[p];
    } else {
      NoRowNoQuantity(rows, x, p);
      NoRowNoQuantity(rows0, x, p);
    }
  }

  lemma NoOrderNoProducts(rows: seq<Row>, x: int)
    requires x !in OrdersOf(rows)
    ensures ProductsOf(rows, x) == {} && HeldBy(rows, x) == map[]
  {
  }

  lemma EachRecorded(rows0: seq<Row>, rows: seq<Row>, o: int, wanted: map<int, int>)
    requires Recorded(rows0, rows, o, wanted, wanted.Keys) && o !in OrdersOf(rows0)
    ensures forall p :: RowQuantity(rows, o, p) == Quantity(wanted, p)
    ensures forall x, p | x != o :: RowQuantity(rows, x, p) == RowQuantity(rows0, x, p)
  {
    assert Part(wanted, wanted.Keys) == wanted;
    assert HeldBy(rows, o).Keys == ProductsOf(rows, o);
    forall p ensures RowQuantity(rows, o, p) == Quantity(wanted, p) {
      if p in wanted {
        assert HeldBy(rows, o)[p] == wanted[p];
      } else {
        NoRowNoQuantity(rows, o, p);
      }
    }
    forall x, p | x != o ensures RowQuantity(rows, x, p) == RowQuantity(rows0, x, p) {
      if x !in OrdersOf(rows0) {
        NoOrderNoProducts(rows0, x);
        NoOrderNoProducts(rows, x);
      } else {
        assert HeldBy(rows, x).Keys == ProductsOf(rows, x) && HeldBy(rows0, x).Keys == ProductsOf(rows0, x);
      }
      SameRows(rows0, rows, x, p);
    }
  }

  lemma NothingHeld(rows: seq<Row>, o: int)
    requires RowsOf(rows, o) == []
    ensures forall p :: RowQuantity(rows, o, p) == 0
  {
    ReservationsAre(rows, o);
    forall p ensures RowQuantity(rows, o, p) == 0 {
      NoRowNoQuantity(rows, o, p);
    }
  }

  lemma EachGivenBack(before: map<int, Product>, now: map<int, Product>, rows: seq<Row>, o: int)
    requires Restored(before, now, RowsOf(rows, o), [], o)
    ensures now.Keys == before.Keys
    ensures forall p | p in now :: now[p].available == before[p].available + RowQuantity(rows, o, p)
  {
    forall p | p in now ensures now[p].available == before[p].available + RowQuantity(rows, o, p) {
      QuantityOfOwn(rows, o, p);
    }
  }

  class Service {
    var products: map<int, Product>
    var rows: seq<Row>
    var nextId: int
    var outbox: seq<Event>
    const cache: Cache

    predicate Valid()
      reads this
    {
      && (forall p | p in products :: p < nextId)
      && OneRowEach(rows)
      && (forall r | r in rows :: r.product in products)
    }

    /** The database this state stands for. */
    function View(): Store
      reads this
    {
      Store(Quantities(products), Held(rows))
    }

    constructor (cache: Cache)
      ensures Valid() && View() == EMPTY && outbox == [] && this.cache == cache
    {
      products, rows, nextId, outbox, this.cache := map[], [], 1, [], cache;
    }

    /** Creates a product unless its SKU is taken. */
    method CreateProduct(about: Label, quantity: int) returns (created: Option<int>)
      requires Valid() && 0 <= quantity
      modifies this`products, this`nextId
      ensures Valid()
      ensures created.None? <==> exists p :: p in old(products) && old(products)[p].about.sku == about.sku
      ensures created.None? ==> products == old(products)
      ensures created.Some? ==>
                && created.value !in old(products)
                && products == old(products)[created.value := Product(about, quantity)]
                && Outcome(View(), true) == Do(old(View()), Stock(created.value, quantity))
    {
      if exists p | p in products :: products[p].about.sku == about.sku {
        return None;
      }
      created := Some(nextId);
      products := products[nextId := Product(about, quantity)];
      nextId := nextId + 1;
      assert View().available == old(View()).available[created.value := quantity];
    }

    method InvalidateAll(ps: set<int>)
      modifies cache`entries
      ensures cache.entries == if cache.reachable then old(cache.entries) - ProductKeys(ps) else old(cache.entries)
    {
      var todo := ps;
      while exists p :: p in todo
        invariant todo <= ps
        invariant cache.entries ==
          if cache.reachable then old(cache.entries) - ProductKeys(ps - todo) else old(cache.entries)
        decreases |todo|
      {
        var p :| p in todo;
        cache.Invalidate({ProductKey(p)});
        assert ProductKeys(ps - (todo - {p})) == ProductKeys(ps - todo) + {ProductKey(p)};
        todo := todo - {p};
      }
    }

    /** The transaction of a reservation that fits. */
    method Book(o: int, wanted: map<int, int>)
      requires Valid() && o !in OrdersOf(rows) && Fits(Quantities(products), wanted)
      modifies this`products, this`rows
      ensures Valid() && Labels(products) == Labels(old(products))
      ensures View() == Store(Take(old(View()).available, wanted),
                              if wanted == map[] then old(View()).held else old(View()).held[o := wanted])
      ensures products.Keys == old(products).Keys && forall p | p in products ::
                products[p].available == old(products)[p].available - Quantity(wanted, p)
      ensures forall p :: RowQuantity(rows, o, p) == Quantity(wanted, p)
      ensures forall x, p | x != o :: RowQuantity(rows, x, p) == RowQuantity(old(rows), x, p)
    {
      assert forall p | p in wanted :: p in Quantities(products);
      var products1, rows1 := TakeStock(products, rows, o, wanted);
      AllBooked(products, products1, rows, rows1, o, wanted);
      EachTaken(products, products1, wanted);
      EachRecorded(rows, rows1, o, wanted);
      products, rows := products1, rows1;
    }

    /** The transaction of a release. */
    method GiveBack(o: int)
      requires Valid() && o in OrdersOf(rows)
      modifies this`products, this`rows
      ensures Valid() && Labels(products) == Labels(old(products))
      ensures View() == Release(old(View()), o).store
      ensures rows == Others(old(rows), o) && products.Keys == old(products).Keys
      ensures forall p | p in products ::
                products[p].available == old(products)[p].available + RowQuantity(old(rows), o, p)
    {
      var products1, rows1 := PutBack(products, rows, o);
      EachGivenBack(products, products1, rows, o);
      ReleaseMatches(products, products1, rows, o);
      products, rows := products1, rows1;
    }

    /** All or nothing, once per order. */
    method ReserveForOrder(o: int, items: seq<Item>) returns (ok: bool)
      requires Valid()
      modifies this`products, this`rows, cache`entries
      ensures Valid() && Outcome(View(), ok) == Reserve(old(View()), o, items)
      ensures ok <==>
                || (exists r :: r in old(rows) && r.order == o)
                || forall p | p in Products(items) :: p in old(products) && Demand(items, p) <= old(products)[p].available
      ensures !ok ==> products == old(products) && rows == old(rows)
      ensures products.Keys == old(products).Keys
      ensures ok && (forall r | r in old(rows) :: r.order != o) ==>
                && (forall p | p in products ::
                      products[p].available ==
                      old(products)[p].available - if p in Products(items) then Demand(items, p) else 0)
                && (forall p :: RowQuantity(rows, o, p) == if p in Products(items) then Demand(items, p) else 0)
                && (forall x, p | x != o :: RowQuantity(rows, x, p) == RowQuantity(old(rows), x, p))
      ensures Labels(products) == Labels(old(products))
      ensures cache.entries ==
              if cache.reachable then old(cache.entries) - ProductKeys(Reserved(old(View()), o, items))
              else old(cache.entries)
    {
      ReservationsAre(rows, o);
      if RowsOf(rows, o) != [] {
        return true;
      }
      var wanted := Aggregate(items);
      var enough := CheckAll(products, wanted);
      FitsIfEnough(products, items);
      if !enough {
        return false;
      }
      Book(o, wanted);
      InvalidateAll(wanted.Keys);
      ok := true;
    }

    method ReleaseForOrder(o: int) returns (released: set<int>)
      requires Valid()
      modifies this`products, this`rows, cache`entries
      ensures Valid() && Outcome(View(), released != {}) == Release(old(View()), o)
      ensures released == Released(old(View()), o) && Labels(products) == Labels(old(products))
      ensures released == set r | r in old(rows) && r.order == o :: r.product
      ensures rows == Others(old(rows), o) && products.Keys == old(products).Keys
      ensures forall p | p in products ::
                products[p].available == old(products)[p].available + RowQuantity(old(rows), o, p)
      ensures cache.entries ==
              if cache.reachable then old(cache.entries) - ProductKeys(released) else old(cache.entries)
    {
      var reservations := RowsOf(rows, o);
      released := set r | r in reservations :: r.product;
      ReservationsAre(rows, o);
      if reservations == [] {
        NoneLeft(rows, o);
        NothingHeld(rows, o);
        assert ProductKeys({}) == {};
        return {};
      }
      GiveBack(o);
      InvalidateAll(released);
    }

    /** The queue's handlers commit first and announce afterwards. */
    method OnOrderCreated(o: int, customer: int, total: int, items: seq<Item>)
      requires Valid()
      modifies this`products, this`rows, this`outbox, cache`entries
      ensures Valid()
      ensures forall w: World, env | w.stock == old(View()) ::
                var r := Handle(InventoryQ, OrderCreated(o, customer, total, items), w, env);
                r.world.stock == View() && r.out.Some? && outbox == old(outbox) + [r.out.value]
      ensures var granted :=
                || (exists r :: r in old(rows) && r.order == o)
                || forall p | p in Products(items) :: p in old(products) && Demand(items, p) <= old(products)[p].available;
              outbox == old(outbox) + [if granted then StockReserved(o, items) else StockUnavailable(o)]
    {
      var reserved := ReserveForOrder(o, items);
      if reserved {
        outbox := outbox + [StockReserved(o, items)];
      } else {
        outbox := outbox + [StockUnavailable(o)];
      }
    }

    method OnOrderCancelled(o: int, customer: int)
      requires Valid()
      modifies this`products, this`rows, this`outbox, cache`entries
      ensures Valid()
      ensures forall w: World, env | w.stock == old(View()) ::
                var r := Handle(InventoryQ, OrderCancelled(o, customer), w, env);
                r.world.stock == View() && outbox == old(outbox) + if r.out.Some? then [r.out.value] else []
      ensures forall r :: r in rows <==> r in old(rows) && r.order != o
      ensures products.Keys == old(products).Keys
      ensures forall p | p in products ::
                products[p].available == old(products)[p].available + RowQuantity(old(rows), o, p)
      ensures var freed := set r | r in old(rows) && r.order == o :: r.product;
              outbox == old(outbox) + if freed == {} then [] else [StockReleased(o, freed)]
    {
      var released := ReleaseForOrder(o);
      if released != {} {
        outbox := outbox + [StockReleased(o, released)];
      }
    }

    method GetProduct(p: int) returns (r: Response)
      modifies cache`entries
      ensures r == ReadProduct(Quantities(products), Labels(products), old(cache.Visible()), p)
      ensures cache.Visible() ==
              if cache.reachable then AfterProductRead(Quantities(products), Labels(products), old(cache.entries), p)
              else map[]
      ensures ProductKey(p) !in old(cache.Visible()) ==>
                r == if p in products then Found(ProductEntry(p, products[p].about, products[p].available)) else NotFound
      ensures ProductKey(p) in old(cache.Visible()) && old(cache.Visible())[ProductKey(p)].ProductEntry? ==>
                r == Found(old(cache.Visible())[ProductKey(p)])
      ensures cache.entries ==
              if cache.reachable && ProductKey(p) !in old(cache.entries) && p in products
              then old(cache.entries)[ProductKey(p) := ProductEntry(p, products[p].about, products[p].available)]
              else old(cache.entries)
    {
      var cached := cache.GetJson(ProductKey(p));
      if cached.Some? {
        return if cached.value.ProductEntry? then Found(cached.value) else Broken;
      }
      if p !in products {
        return NotFound;
      }
      r := Found(ProductEntry(p, products[p].about, products[p].available));
      cache.SetJson(ProductKey(p), ProductEntry(p, products[p].about, products[p].available));
    }
  }
}
