/** Cache-aside reads of orders and products: exact when operations are atomic, boundedly stale when not. */
module CacheAside {
  import opened Runs
  import opened Domain
  import opened Allocation
  import opened Numerals
  import opened Saga

  /** The columns of a product row that never change. */
  datatype Label = Label(sku: string, name: string)

  datatype Entry =
    | OrderEntry(id: int, order: Order)
    | ProductEntry(id: int, about: Label, quantity: int)

  datatype Identity = Identity(user: int, admin: bool)

  /** `Broken` is what a caller would see if a key held the wrong kind of entry. */
  datatype Response = Found(entry: Entry) | NotFound | Broken

  type Cached = map<string, Entry>

  predicate MaySee(who: Identity, customer: int) {
    who.admin || customer == who.user
  }

  /** The answer of the database alone. */
  function UncachedOrder(orders: map<int, Order>, o: int, who: Identity): Response {
    if o !in orders || !MaySee(who, orders[o].customer) then NotFound
    else Found(OrderEntry(o, orders[o]))
  }

  function UncachedProduct(available: map<int, int>, labels: map<int, Label>, p: int): Response {
    if p in available && p in labels then Found(ProductEntry(p, labels[p], available[p])) else NotFound
  }

  /** The answer a cached entry gives to an order read. */
  function FromEntry(e: Entry, who: Identity): Response {
    if !e.OrderEntry? then Broken
    else if MaySee(who, e.order.customer) then Found(e)
    else NotFound
  }

  function ReadOrder(orders: map<int, Order>, cache: Cached, o: int, who: Identity): Response {
    if OrderKey(o) in cache then FromEntry(cache[OrderKey(o)], who) else UncachedOrder(orders, o, who)
  }

  /** A miss that found the row leaves it in the cache. */
  function AfterOrderRead(orders: map<int, Order>, cache: Cached, o: int, who: Identity): Cached {
    if OrderKey(o) in cache || UncachedOrder(orders, o, who) == NotFound then cache
    else cache[OrderKey(o) := OrderEntry(o, orders[o])]
  }

  function ReadProduct(available: map<int, int>, labels: map<int, Label>, cache: Cached, p: int): Response {
    if ProductKey(p) in cache then
      if cache[ProductKey(p)].ProductEntry? then Found(cache[ProductKey(p)]) else Broken
    else UncachedProduct(available, labels, p)
  }

  function AfterProductRead(available: map<int, int>, labels: map<int, Label>, cache: Cached, p: int): Cached {
    if ProductKey(p) in cache || p !in available || p !in labels then cache
    else cache[ProductKey(p) := ProductEntry(p, labels[p], available[p])]
  }

  function ProductKeys(ps: set<int>): set<string> {
    set p | p in ps :: ProductKey(p)
  }

  /** The products whose entries a reservation invalidates. */
  function Reserved(stock: Store, o: int, items: seq<Item>): set<int> {
    if o !in stock.held && Reserve(stock, o, items).ok then Wanted(items).Keys else {}
  }

  function Released(stock: Store, o: int): set<int> {
    if o in stock.held then stock.held[o].Keys else {}
  }

  // ----- atomic operations, working cache -----

  datatype Site = Site(orders: map<int, Order>, stock: Store, labels: map<int, Label>, cache: Cached)

  const BLANK := Site(map[], EMPTY, map[], map[])

  datatype Operation =
    | SubmitOrder(order: int, customer: int, lines: seq<Line>)
    | SetOrderStatus(order: int, status: Status)
    | CancelOrder(order: int)
    | CreateProduct(product: int, about: Label, quantity: int)
    | ReserveStock(order: int, items: seq<Item>)
    | ReleaseStock(order: int)
    | GetOrder(order: int, who: Identity)
    | GetProduct(product: int)
    | Evict(key: string)

  function Apply(s: Site, op: Operation): Site {
    match op
    case SubmitOrder(o, customer, lines) =>
      if o in s.orders then s
      else s.(orders := PlaceOrder(s.orders, o, customer, lines))
    case SetOrderStatus(o, status) =>
      if o !in s.orders || s.orders[o].status == status then s
      else s.(orders := SetStatus(s.orders, o, status), cache := s.cache - {OrderKey(o)})
    case CancelOrder(o) =>
      if o !in s.orders || s.orders[o].status in {Shipped, Delivered, Cancelled} then s
      else s.(orders := SetStatus(s.orders, o, Cancelled), cache := s.cache - {OrderKey(o)})
    case CreateProduct(p, about, q) =>
      if p in s.stock.available then s
      else s.(stock := s.stock.(available := s.stock.available[p := q]), labels := s.labels[p := about])
    case ReserveStock(o, items) =>
      s.(stock := Reserve(s.stock, o, items).store, cache := s.cache - ProductKeys(Reserved(s.stock, o, items)))
    case ReleaseStock(o) =>
      s.(stock := Release(s.stock, o).store, cache := s.cache - ProductKeys(Released(s.stock, o)))
    case GetOrder(o, who) => s.(cache := AfterOrderRead(s.orders, s.cache, o, who))
    case GetProduct(p) => s.(cache := AfterProductRead(s.stock.available, s.labels, s.cache, p))
    case Evict(key) => s.(cache := s.cache - {key})
  }

  function Exec(s: Site, ops: seq<Operation>): Site {
    Fold(Apply, s, ops)
  }

  predicate OrderCoherent(s: Site, o: int) {
    OrderKey(o) in s.cache ==> o in s.orders && s.cache[OrderKey(o)] == OrderEntry(o, s.orders[o])
  }

  predicate ProductCoherent(s: Site, p: int) {
    ProductKey(p) in s.cache ==>
      && p in s.stock.available && p in s.labels
      && s.cache[ProductKey(p)] == ProductEntry(p, s.labels[p], s.stock.available[p])
  }

  ghost predicate Coherent(s: Site) {
    && (forall o :: OrderCoherent(s, o))
    && (forall p :: ProductCoherent(s, p))
  }

  /** Only invalidated products change quantity. */
  lemma UntouchedProducts(stock: Store, o: int, items: seq<Item>, p: int)
    ensures p in stock.available && p !in Reserved(stock, o, items) ==>
              p in Reserve(stock, o, items).store.available
              && Reserve(stock, o, items).store.available[p] == stock.available[p]
    ensures p in stock.available && p !in Released(stock, o) ==>
              p in Release(stock, o).store.available && Release(stock, o).store.available[p] == stock.available[p]
  {
  }

  lemma StepOrderCoherent(s: Site, op: Operation, o: int)
    requires OrderCoherent(s, o)
    ensures OrderCoherent(Apply(s, op), o)
  {
    match op
    case GetOrder(o', _) => KeysDistinct(o', o);
    case GetProduct(p) => KeysDistinct(o, p);
    case SetOrderStatus(o', status) => KeysDistinct(o', o);
    case CancelOrder(o') => KeysDistinct(o', o);
    case _ =>
  }

  lemma StepProductCoherent(s: Site, op: Operation, p: int)
    requires ProductCoherent(s, p)
    ensures ProductCoherent(Apply(s, op), p)
  {
    match op
    case GetProduct(p') => KeysDistinct(p', p);
    case GetOrder(o, _) => KeysDistinct(o, p);
    case ReserveStock(o, items) => UntouchedProducts(s.stock, o, items, p);
    case ReleaseStock(o) => UntouchedProducts(s.stock, o, [], p);
    case _ =>
  }

  lemma {:induction false} RunCoherent(ops: seq<Operation>)
    ensures Coherent(Exec(BLANK, ops))
  {
    if ops != [] {
      var n := |ops| - 1;
      var s := Exec(BLANK, ops[..n]);
      RunCoherent(ops[..n]);
      forall o ensures OrderCoherent(Apply(s, ops[n]), o) {
        StepOrderCoherent(s, ops[n], o);
      }
      forall p ensures ProductCoherent(Apply(s, ops[n]), p) {
        StepProductCoherent(s, ops[n], p);
      }
    }
  }

  /** Whatever was created, changed, read or evicted, a cached read answers what the database would. */
  lemma CacheTransparent(ops: seq<Operation>, o: int, who: Identity, p: int)
    ensures var s := Exec(BLANK, ops);
            && ReadOrder(s.orders, s.cache, o, who) == UncachedOrder(s.orders, o, who)
            && ReadProduct(s.stock.available, s.labels, s.cache, p) == UncachedProduct(s.stock.available, s.labels, p)
  {
    RunCoherent(ops);
    assert OrderCoherent(Exec(BLANK, ops), o) && ProductCoherent(Exec(BLANK, ops), p);
  }

  /** Cached or not, an order is found by its customer and by admins and by nobody else, and as it is stored. */
  lemma OnlyOwnersRead(ops: seq<Operation>, o: int, who: Identity)
    ensures var s := Exec(BLANK, ops);
            ReadOrder(s.orders, s.cache, o, who) ==
            if o in s.orders && (who.admin || s.orders[o].customer == who.user) then Found(OrderEntry(o, s.orders[o]))
            else NotFound
  {
    CacheTransparent(ops, o, who, 0);
  }

  // ----- interleaved readers and writers, failing cache -----

  /** A reader that missed, or one that has loaded the row and is about to store it. */
  datatype Reader = Missed(order: int, who: Identity) | Loaded(order: int, row: Order)

  /** `past[o]` is every state order `o` has had; `stale` are commits whose invalidation is still due. */
  datatype Shop = Shop(
    rows: map<int, Order>,
    past: map<int, set<Order>>,
    cache: Cached,
    readers: map<int, Reader>,
    stale: multiset<int>)

  const CLOSED := Shop(map[], map[], map[], map[], multiset{})

  /** `works` says whether the cache call of a step succeeds; a failure is a miss or a no-op. */
  datatype Move =
    | Insert(order: int, customer: int, lines: seq<Line>)
    | Update(order: int, status: Status)
    | Invalidate(order: int, works: bool)
    | Lookup(reader: int, order: int, who: Identity, works: bool)
    | Load(reader: int)
    | Fill(reader: int, works: bool)
    | Forget(key: string)

  function Advance(s: Shop, m: Move): Shop {
    match m
    case Insert(o, customer, lines) =>
      if o in s.rows || o in s.past then s
      else
        var row := Order(customer, Domain.Total(lines), Pending, lines);
        s.(rows := s.rows[o := row], past := s.past[o := {row}])
    case Update(o, status) =>
      if o !in s.rows || o !in s.past then s
      else
        var row := s.rows[o].(status := status);
        s.(rows := s.rows[o := row], past := s.past[o := s.past[o] + {row}], stale := s.stale + multiset{o})
    case Invalidate(o, works) =>
      if o !in s.stale then s
      else s.(stale := s.stale - multiset{o}, cache := if works then s.cache - {OrderKey(o)} else s.cache)
    case Lookup(t, o, who, works) =>
      if t in s.readers || (works && OrderKey(o) in s.cache) then s
      else s.(readers := s.readers[t := Missed(o, who)])
    case Load(t) =>
      if t !in s.readers || !s.readers[t].Missed? then s
      else
        var Missed(o, who) := s.readers[t];
        if UncachedOrder(s.rows, o, who) == NotFound then s.(readers := s.readers - {t})
        else s.(readers := s.readers[t := Loaded(o, s.rows[o])])
    case Fill(t, works) =>
      if t !in s.readers || !s.readers[t].Loaded? then s
      else
        var Loaded(o, row) := s.readers[t];
        s.(readers := s.readers - {t}, cache := if works then s.cache[OrderKey(o) := OrderEntry(o, row)] else s.cache)
    case Forget(key) => s.(cache := s.cache - {key})
  }

  function Play(s: Shop, moves: seq<Move>): Shop {
    Fold(Advance, s, moves)
  }

  /** `row` is a state order `o` has been in, and differs from now at most in status. */
  predicate WasOnce(s: Shop, o: int, row: Order) {
    o in s.rows && o in s.past && row in s.past[o] && row.(status := s.rows[o].status) == s.rows[o]
  }

  predicate RowRemembered(s: Shop, o: int) {
    (o in s.rows <==> o in s.past) &&
    (o in s.rows ==> s.rows[o] in s.past[o])
  }

  predicate EntryWasOnce(s: Shop, o: int) {
    OrderKey(o) in s.cache ==>
      s.cache[OrderKey(o)].OrderEntry? && s.cache[OrderKey(o)].id == o && WasOnce(s, o, s.cache[OrderKey(o)].order)
  }

  ghost predicate PastOnly(s: Shop) {
    && (forall o :: RowRemembered(s, o))
    && (forall t | t in s.readers && s.readers[t].Loaded? :: WasOnce(s, s.readers[t].order, s.readers[t].row))
    && (forall o :: EntryWasOnce(s, o))
  }

  lemma WasOnceLater(s: Shop, m: Move, o: int, row: Order)
    requires WasOnce(s, o, row)
    ensures WasOnce(Advance(s, m), o, row)
  {
  }

  lemma MoveRemembers(s: Shop, m: Move, o: int)
    requires RowRemembered(s, o)
    ensures RowRemembered(Advance(s, m), o)
  {
  }

  lemma MoveKeepsLoaded(s: Shop, m: Move, t: int)
    requires PastOnly(s) && t in Advance(s, m).readers && Advance(s, m).readers[t].Loaded?
    ensures WasOnce(Advance(s, m), Advance(s, m).readers[t].order, Advance(s, m).readers[t].row)
  {
    var r := Advance(s, m).readers[t];
    if t in s.readers && s.readers[t] == r {
      WasOnceLater(s, m, r.order, r.row);
    } else {
      assert RowRemembered(s, r.order);
    }
  }

  lemma MoveKeepsEntry(s: Shop, m: Move, o: int)
    requires PastOnly(s)
    ensures EntryWasOnce(Advance(s, m), o)
  {
    assert EntryWasOnce(s, o);
    if m.Fill? && m.reader in s.readers {
      KeysDistinct(o, s.readers[m.reader].order);
    }
    if OrderKey(o) in s.cache {
      WasOnceLater(s, m, o, s.cache[OrderKey(o)].order);
    }
  }

  lemma MoveKeepsPast(s: Shop, m: Move)
    requires PastOnly(s)
    ensures PastOnly(Advance(s, m))
  {
    var s1 := Advance(s, m);
    forall o ensures RowRemembered(s1, o) && EntryWasOnce(s1, o) {
      assert RowRemembered(s, o);
      MoveRemembers(s, m, o);
      MoveKeepsEntry(s, m, o);
    }
    forall t | t in s1.readers && s1.readers[t].Loaded? ensures WasOnce(s1, s1.readers[t].order, s1.readers[t].row) {
      MoveKeepsLoaded(s, m, t);
    }
  }

  lemma {:induction false} PlayKeepsPast(moves: seq<Move>)
    ensures PastOnly(Play(CLOSED, moves))
  {
    if moves != [] {
      PlayKeepsPast(moves[..|moves| - 1]);
      MoveKeepsPast(Play(CLOSED, moves[..|moves| - 1]), moves[|moves| - 1]);
    }
  }

  /**
   * Under any interleaving and any cache failures, a cached order is a state that order was in, it
   * differs from the current row in nothing but status, and every caller gets the same decision.
   */
  lemma BoundedStaleness(moves: seq<Move>, o: int, who: Identity)
    requires OrderKey(o) in Play(CLOSED, moves).cache
    ensures var s := Play(CLOSED, moves);
            var e := s.cache[OrderKey(o)];
            && o in s.rows && o in s.past && e.OrderEntry? && e.order in s.past[o]
            && e.order.(status := s.rows[o].status) == s.rows[o]
            && (FromEntry(e, who).Found? <==> UncachedOrder(s.rows, o, who).Found?)
            && (FromEntry(e, who) == NotFound <==> UncachedOrder(s.rows, o, who) == NotFound)
  {
    PlayKeepsPast(moves);
    assert EntryWasOnce(Play(CLOSED, moves), o);
  }

  /** Even a stale entry is shown to nobody but the order's customer and admins. */
  lemma OnlyOwnersReadStale(moves: seq<Move>, o: int, who: Identity)
    ensures var s := Play(CLOSED, moves);
            var r := ReadOrder(s.rows, s.cache, o, who);
            if o in s.rows && (who.admin || s.rows[o].customer == who.user)
            then r.Found? && r.entry.OrderEntry? && r.entry.order.(status := s.rows[o].status) == s.rows[o]
            else r == NotFound
  {
    if OrderKey(o) in Play(CLOSED, moves).cache {
      BoundedStaleness(moves, o, who);
    }
  }

  // ----- exactly when interleaved reads stay current -----

  predicate EntryCurrent(s: Shop, o: int) {
    OrderKey(o) in s.cache && o !in s.stale ==> o in s.rows && s.cache[OrderKey(o)] == OrderEntry(o, s.rows[o])
  }

  /** An entry is out of date only while its writer still has to invalidate it, and no reader holds an old row. */
  ghost predicate Current(s: Shop) {
    && (forall o :: EntryCurrent(s, o))
    && (forall t | t in s.readers && s.readers[t].Loaded? ::
          s.readers[t].order in s.rows && s.readers[t].row == s.rows[s.readers[t].order])
  }

  predicate Holds(s: Shop, t: int, o: int) {
    t in s.readers && s.readers[t].Loaded? && s.readers[t].order == o
  }

  /**
   * What a writer could check: an update changes nothing or finds no reader between load and store, and
   * an invalidation works, is not the last one due, or finds nothing outdated to remove.
   */
  predicate Harmless(s: Shop, m: Move) {
    match m
    case Update(o, status) =>
      o !in s.rows || s.rows[o].status == status || forall t | t in s.readers :: !Holds(s, t, o)
    case Invalidate(o, works) =>
      works || s.stale[o] != 1 || OrderKey(o) !in s.cache ||
      (o in s.rows && s.cache[OrderKey(o)] == OrderEntry(o, s.rows[o]))
    case _ => true
  }

  lemma HarmlessKeepsEntry(s: Shop, m: Move, o: int)
    requires Current(s) && PastOnly(s) && Harmless(s, m)
    ensures EntryCurrent(Advance(s, m), o)
  {
    assert EntryCurrent(s, o) && EntryWasOnce(s, o);
    if m.Fill? && m.reader in s.readers {
      KeysDistinct(o, s.readers[m.reader].order);
    } else if m.Invalidate? {
      KeysDistinct(o, m.order);
    }
  }

  lemma HarmlessKeepsReader(s: Shop, m: Move, t: int)
    requires Current(s) && Harmless(s, m) && t in Advance(s, m).readers && Advance(s, m).readers[t].Loaded?
    ensures var s1, r := Advance(s, m), Advance(s, m).readers[t]; r.order in s1.rows && r.row == s1.rows[r.order]
  {
    if m.Update? && t in s.readers && s.readers[t].order == m.order {
      assert Holds(s, t, m.order);
    }
  }

  lemma HarmlessKeepsCurrent(s: Shop, m: Move)
    requires Current(s) && PastOnly(s) && Harmless(s, m)
    ensures Current(Advance(s, m))
  {
    var s1 := Advance(s, m);
    forall o ensures EntryCurrent(s1, o) {
      HarmlessKeepsEntry(s, m, o);
    }
    forall t | t in s1.readers && s1.readers[t].Loaded?
      ensures s1.readers[t].order in s1.rows && s1.readers[t].row == s1.rows[s1.readers[t].order]
    {
      HarmlessKeepsReader(s, m, t);
    }
  }

  lemma HarmBreaksCurrent(s: Shop, m: Move)
    requires Current(s) && PastOnly(s) && !Harmless(s, m)
    ensures !Current(Advance(s, m))
  {
    var s1 := Advance(s, m);
    if m.Update? {
      var t :| t in s.readers && Holds(s, t, m.order);
      assert RowRemembered(s, m.order);
      assert s1.readers[t].row != s1.rows[m.order];
    } else {
      assert !EntryCurrent(s1, m.order);
    }
  }

  // ----- why that is the boundary -----

  /** Moves that only carry on what is under way: no new update, and no invalidation that fails. */
  predicate Settling(moves: seq<Move>) {
    forall m | m in moves :: !m.Update? && (m.Invalidate? ==> m.works)
  }

  /** However things settle from here, an entry with no invalidation due is the row. */
  ghost predicate Safe(s: Shop) {
    forall moves, o :: Settling(moves) ==> EntryCurrent(Play(s, moves), o)
  }

  lemma {:induction false} SettlingKeepsCurrent(s: Shop, moves: seq<Move>)
    requires Current(s) && PastOnly(s) && Settling(moves)
    ensures Current(Play(s, moves)) && PastOnly(Play(s, moves))
  {
    if moves != [] {
      var init, m := moves[..|moves| - 1], moves[|moves| - 1];
      SettlingKeepsCurrent(s, init);
      HarmlessKeepsCurrent(Play(s, init), m);
      MoveKeepsPast(Play(s, init), m);
    }
  }

  predicate OnlyFewerDue(s: Shop, s1: Shop) {
    s1.rows == s.rows && s1.readers == s.readers
  }

  lemma InvalidateFirst(s: Shop, o: int, rest: seq<Move>)
    requires o in s.stale
    ensures Play(s, [Invalidate(o, true)] + rest) == Play(Advance(s, Invalidate(o, true)), rest)
    ensures Advance(s, Invalidate(o, true)).stale[o] == s.stale[o] - 1
    ensures OnlyFewerDue(s, Advance(s, Invalidate(o, true)))
  {
    FoldJoin(Advance, s, [Invalidate(o, true)], rest);
    FoldOne(Advance, s, [], Invalidate(o, true));
    assert [] + [Invalidate(o, true)] == [Invalidate(o, true)];
  }

  /** Every invalidation of `o` that is due comes and succeeds. */
  lemma {:induction false} AllInvalidated(s: Shop, o: int) returns (moves: seq<Move>)
    ensures Settling(moves) && o !in Play(s, moves).stale && OnlyFewerDue(s, Play(s, moves))
    decreases s.stale[o]
  {
    if o !in s.stale {
      moves := [];
    } else {
      InvalidateFirst(s, o, []);
      var rest := AllInvalidated(Advance(s, Invalidate(o, true)), o);
      InvalidateFirst(s, o, rest);
      moves := [Invalidate(o, true)] + rest;
    }
  }

  /** A reader holding an outdated row can still store it once every invalidation has come and gone. */
  lemma OldRowStrikes(s: Shop, t: int)
    requires t in s.readers && s.readers[t].Loaded?
    requires s.readers[t].order !in s.rows || s.readers[t].row != s.rows[s.readers[t].order]
    ensures !Safe(s)
  {
    var o := s.readers[t].order;
    var due := AllInvalidated(s, o);
    FoldOne(Advance, s, due, Fill(t, true));
    assert Settling(due + [Fill(t, true)]);
    assert !EntryCurrent(Play(s, due + [Fill(t, true)]), o);
  }

  lemma SafeIffCurrent(s: Shop)
    requires PastOnly(s)
    ensures Safe(s) <==> Current(s)
  {
    if Current(s) {
      forall moves, o | Settling(moves) ensures EntryCurrent(Play(s, moves), o) {
        SettlingKeepsCurrent(s, moves);
      }
    } else if o :| !EntryCurrent(s, o) {
      assert Settling([]) && Play(s, []) == s;
    } else {
      var t :| t in s.readers && s.readers[t].Loaded? &&
               (s.readers[t].order !in s.rows || s.readers[t].row != s.rows[s.readers[t].order]);
      OldRowStrikes(s, t);
    }
  }

  /** In any reachable safe state, the next move keeps the shop safe if and only if it is harmless. */
  lemma SafeStepIff(moves: seq<Move>, m: Move)
    requires Safe(Play(CLOSED, moves))
    ensures Safe(Play(CLOSED, moves + [m])) <==> Harmless(Play(CLOSED, moves), m)
  {
    var s := Play(CLOSED, moves);
    FoldOne(Advance, CLOSED, moves, m);
    PlayKeepsPast(moves);
    MoveKeepsPast(s, m);
    SafeIffCurrent(s);
    SafeIffCurrent(Advance(s, m));
    if Harmless(s, m) {
      HarmlessKeepsCurrent(s, m);
    } else {
      HarmBreaksCurrent(s, m);
    }
  }

  /** Safe now and after each earlier move of the run. */
  ghost predicate AlwaysSafe(moves: seq<Move>) {
    Safe(Play(CLOSED, moves)) && (moves == [] || AlwaysSafe(moves[..|moves| - 1]))
  }

  /** A run never risks a lasting stale entry if and only if every move was harmless when it was made. */
  lemma {:induction false} AlwaysSafeIff(moves: seq<Move>)
    ensures AlwaysSafe(moves) <==> Possible(Harmless, Advance, CLOSED, moves)
  {
    if moves == [] {
      SafeIffCurrent(CLOSED);
    } else {
      var init, m := moves[..|moves| - 1], moves[|moves| - 1];
      assert moves == init + [m];
      AlwaysSafeIff(init);
      if AlwaysSafe(init) {
        SafeStepIff(init, m);
      }
    }
  }

  /** After harmless moves a cached order differs from its row only while its writer still has to invalidate it. */
  lemma StaleOnlyWhileDue(moves: seq<Move>, o: int)
    requires Possible(Harmless, Advance, CLOSED, moves)
    ensures EntryCurrent(Play(CLOSED, moves), o)
  {
    AlwaysSafeIff(moves);
    PlayKeepsPast(moves);
    SafeIffCurrent(Play(CLOSED, moves));
  }

  // ----- and when they are not -----

  function Row(lines: seq<Line>): Order {
    Order(2, Domain.Total(lines), Pending, lines)
  }

  /** An order is placed, and a reader misses and loads it. */
  function SlowRead(lines: seq<Line>): seq<Move> {
    [] + [Insert(7, 2, lines)] + [Lookup(0, 7, Identity(1, true), true)] + [Load(0)]
  }

  lemma AfterSlowRead(lines: seq<Line>)
    ensures Play(CLOSED, SlowRead(lines)) ==
            Shop(map[7 := Row(lines)], map[7 := {Row(lines)}], map[], map[0 := Loaded(7, Row(lines))], multiset{})
  {
    var m1, m2 := Insert(7, 2, lines), Lookup(0, 7, Identity(1, true), true);
    FoldOne(Advance, CLOSED, [], m1);
    FoldOne(Advance, CLOSED, [] + [m1], m2);
    FoldOne(Advance, CLOSED, [] + [m1] + [m2], Load(0));
  }

  /** Meanwhile a writer commits and invalidates; only then does the reader store what it loaded. */
  lemma AfterLateFill(s: Shop, lines: seq<Line>)
    requires s == Shop(map[7 := Row(lines)], map[7 := {Row(lines)}], map[], map[0 := Loaded(7, Row(lines))], multiset{})
    ensures var s1 := Advance(Advance(Advance(s, Update(7, Confirmed)), Invalidate(7, true)), Fill(0, true));
            && s1.rows[7].status == Confirmed && s1.readers == map[] && s1.stale == multiset{}
            && s1.cache == map[OrderKey(7) := OrderEntry(7, Row(lines))]
  {
  }

  /** A slow reader can store an old status after the writer's invalidation, and nothing is left to remove it. */
  lemma StaleEntryCanSurvive(lines: seq<Line>)
    ensures exists moves: seq<Move>, o ::
              var s := Play(CLOSED, moves);
              && s.readers == map[] && s.stale == multiset{} && o in s.rows && OrderKey(o) in s.cache
              && s.cache[OrderKey(o)] != OrderEntry(o, s.rows[o])
  {
    var read := SlowRead(lines);
    var all := read + [Update(7, Confirmed)] + [Invalidate(7, true)] + [Fill(0, true)];
    AfterSlowRead(lines);
    FoldOne(Advance, CLOSED, read, Update(7, Confirmed));
    FoldOne(Advance, CLOSED, read + [Update(7, Confirmed)], Invalidate(7, true));
    FoldOne(Advance, CLOSED, read + [Update(7, Confirmed)] + [Invalidate(7, true)], Fill(0, true));
    AfterLateFill(Play(CLOSED, read), lines);
    assert 7 in Play(CLOSED, all).rows;
  }
}
