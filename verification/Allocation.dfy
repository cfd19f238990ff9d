/** The stock allocator as functions on the inventory database, and what holds over every run of it. */
module Allocation {
  import opened Domain
  import opened Runs

  /** `available` per product; `held[o]` is what order `o` has reserved, one quantity per product. */
  datatype Store = Store(available: map<int, int>, held: map<int, map<int, int>>)

  datatype Outcome = Outcome(store: Store, ok: bool)

  const EMPTY := Store(map[], map[])

  function Demand(items: seq<Item>, p: int): int {
    if items == [] then 0
    else
      var last := items[|items| - 1];
      Demand(items[..|items| - 1], p) + if last.product == p then last.quantity else 0
  }

  function Products(items: seq<Item>): set<int> {
    set i | i in items :: i.product
  }

  /** The aggregated order: the summed demand of every product it names. */
  function Wanted(items: seq<Item>): map<int, int> {
    map p | p in Products(items) :: Demand(items, p)
  }

  function Quantity(m: map<int, int>, p: int): int {
    if p in m then m[p] else 0
  }

  predicate Fits(available: map<int, int>, wanted: map<int, int>) {
    forall p | p in wanted :: p in available && wanted[p] <= available[p]
  }

  function Take(available: map<int, int>, wanted: map<int, int>): map<int, int> {
    map p | p in available :: available[p] - Quantity(wanted, p)
  }

  function Give(available: map<int, int>, rows: map<int, int>): map<int, int> {
    map p | p in available :: available[p] + Quantity(rows, p)
  }

  /** Check everything, then take everything; an order that already holds stock is simply confirmed. */
  function Reserve(s: Store, o: int, items: seq<Item>): Outcome {
    var wanted := Wanted(items);
    if o in s.held then Outcome(s, true)
    else if !Fits(s.available, wanted) then Outcome(s, false)
    else Outcome(Store(Take(s.available, wanted), if wanted == map[] then s.held else s.held[o := wanted]), true)
  }

  function Release(s: Store, o: int): Outcome {
    if o !in s.held then Outcome(s, false)
    else Outcome(Store(Give(s.available, s.held[o]), s.held - {o}), true)
  }

  datatype Command =
    | Stock(product: int, quantity: int)
    | Claim(order: int, items: seq<Item>)
    | Free(order: int)

  /** What the HTTP schemas and the order service let through. */
  predicate Admissible(c: Command) {
    match c
    case Stock(_, q) => 0 <= q
    case Claim(_, items) => forall i | i in items :: 0 < i.quantity
    case Free(_) => true
  }

  function Do(s: Store, c: Command): Outcome {
    match c
    case Stock(p, q) =>
      if p in s.available then Outcome(s, false)
      else Outcome(s.(available := s.available[p := q]), true)
    case Claim(o, items) => Reserve(s, o, items)
    case Free(o) => Release(s, o)
  }

  function After(s: Store, c: Command): Store {
    Do(s, c).store
  }

  function Run(s: Store, cs: seq<Command>): Store {
    Fold(After, s, cs)
  }

  /** The answer the i-th command of a run got. */
  function Verdict(s: Store, cs: seq<Command>, i: nat): bool
    requires i < |cs|
  {
    Do(Run(s, cs[..i]), cs[i]).ok
  }

  // ----- demand -----

  lemma {:induction false} DemandPositive(items: seq<Item>, p: int)
    requires forall i | i in items :: 0 < i.quantity
    ensures 0 <= Demand(items, p)
    ensures p in Products(items) ==> 0 < Demand(items, p)
  {
    if items != [] {
      var init, last := items[..|items| - 1], items[|items| - 1];
      assert items == init + [last];
      DemandPositive(init, p);
    }
  }

  lemma {:induction false} DemandWithout(items: seq<Item>, k: nat, p: int)
    requires k < |items|
    ensures Demand(items, p) ==
            Demand(items[..k] + items[k + 1..], p) + if items[k].product == p then items[k].quantity else 0
  {
    var n := |items| - 1;
    var rest := items[..k] + items[k + 1..];
    if k == n {
      assert rest == items[..n];
    } else {
      DemandWithout(items[..n], k, p);
      assert rest[..|rest| - 1] == items[..n][..k] + items[..n][k + 1..];
      assert rest[|rest| - 1] == items[n];
    }
  }

  lemma RemoveOne(a: seq<Item>, k: nat)
    requires k < |a|
    ensures multiset(a[..k] + a[k + 1..]) == multiset(a) - multiset{a[k]}
  {
    assert a == a[..k] + [a[k]] + a[k + 1..];
  }

  lemma {:induction false} DemandPermuted(a: seq<Item>, b: seq<Item>, p: int)
    requires multiset(a) == multiset(b)
    ensures Demand(a, p) == Demand(b, p)
    decreases |a|
  {
    if a == [] {
      assert |multiset(b)| == 0;
    } else {
      var n := |a| - 1;
      assert a[n] in multiset(b);
      var k :| 0 <= k < |b| && b[k] == a[n];
      RemoveOne(a, n);
      RemoveOne(b, k);
      assert a[..n] + a[n + 1..] == a[..n];
      DemandPermuted(a[..n], b[..k] + b[k + 1..], p);
      DemandWithout(b, k, p);
    }
  }

  // ----- what an order buys and what inventory is asked for -----

  function Named(lines: seq<Line>): set<int> {
    set l | l in lines :: l.product
  }

  /** Units bought of each product an order names. */
  function Basket(lines: seq<Line>): map<int, int> {
    map p | p in Named(lines) :: Bought(lines, p)
  }

  /** The demand announced is what the stored lines buy, product by product. */
  lemma {:induction false} DemandIsBought(lines: seq<Line>, p: int)
    ensures Demand(Payload(lines), p) == Bought(lines, p)
  {
    if lines != [] {
      var n, last := |lines| - 1, lines[|lines| - 1];
      assert Payload(lines)[..n] == Payload(lines[..n]);
      DemandIsBought(lines[..n], p);
      BoughtAdds(lines[..n], [last], last, p);
      assert lines == lines[..n] + [last];
    }
  }

  lemma PayloadProducts(lines: seq<Line>)
    ensures Products(Payload(lines)) == Named(lines)
  {
    var items := Payload(lines);
    forall q ensures q in Products(items) <==> q in Named(lines) {
      if q in Products(items) {
        var k :| 0 <= k < |items| && items[k].product == q;
        assert lines[k] in lines;
      }
      if l :| l in lines && l.product == q {
        var k :| 0 <= k < |lines| && lines[k] == l;
        assert items[k] in items;
      }
    }
  }

  lemma WantedIsBasket(lines: seq<Line>)
    ensures Wanted(Payload(lines)) == Basket(lines)
  {
    PayloadProducts(lines);
    forall p ensures Demand(Payload(lines), p) == Bought(lines, p) {
      DemandIsBought(lines, p);
    }
  }

  // ----- one call -----

  /** A fresh order succeeds exactly when every product it names exists and covers the summed demand. */
  lemma ReserveVerdict(s: Store, o: int, items: seq<Item>)
    requires o !in s.held
    ensures Reserve(s, o, items).ok <==>
            forall p | p in Products(items) :: p in s.available && Demand(items, p) <= s.available[p]
    ensures !Reserve(s, o, items).ok ==> Reserve(s, o, items).store == s
    ensures Reserve(s, o, items).ok ==>
              && Reserve(s, o, items).store.available.Keys == s.available.Keys
              && (forall p | p in s.available ::
                    Reserve(s, o, items).store.available[p] ==
                    s.available[p] - if p in Products(items) then Demand(items, p) else 0)
              && (items != [] ==> Reserve(s, o, items).store.held == s.held[o := Wanted(items)])
  {
    var w := Wanted(items);
    assert forall p | p in Products(items) :: w[p] == Demand(items, p);
    if items != [] {
      assert items[0].product in w;
    }
  }

  /** The order of the items is irrelevant: same verdict, same store. */
  lemma ReservePermuted(s: Store, o: int, a: seq<Item>, b: seq<Item>)
    requires multiset(a) == multiset(b)
    ensures Reserve(s, o, a) == Reserve(s, o, b)
  {
    assert forall i :: i in a <==> i in multiset(a);
    assert forall i :: i in b <==> i in multiset(b);
    assert Products(a) == Products(b);
    forall p ensures Demand(a, p) == Demand(b, p) {
      DemandPermuted(a, b, p);
    }
    assert Wanted(a) == Wanted(b);
  }

  /** Releasing right after a fresh reservation restores the store to the last unit. */
  lemma ReleaseUndoesReserve(s: Store, o: int, items: seq<Item>)
    requires o !in s.held && Reserve(s, o, items).ok
    ensures Release(Reserve(s, o, items).store, o).store == s
  {
    var s1 := Reserve(s, o, items).store;
    if Wanted(items) == map[] {
      assert s1.available == s.available;
    } else {
      assert Release(s1, o).store.held == s.held;
      assert Release(s1, o).store.available == s.available;
    }
  }

  /** Neither operation touches what another order holds. */
  lemma OthersUntouched(s: Store, o: int, items: seq<Item>, other: int)
    requires other != o
    ensures other in Reserve(s, o, items).store.held <==> other in s.held
    ensures other in Release(s, o).store.held <==> other in s.held
    ensures other in s.held ==>
              && Reserve(s, o, items).store.held[other] == s.held[other]
              && Release(s, o).store.held[other] == s.held[other]
  {
  }

  /** A redelivered claim changes nothing exactly when the order holds stock or is short. */
  lemma ClaimIsNoOpIff(s: Store, o: int, items: seq<Item>)
    requires items != [] && forall i | i in items :: 0 < i.quantity
    ensures Reserve(s, o, items).store == s <==> o in s.held || !Fits(s.available, Wanted(items))
  {
    var p := items[0].product;
    assert p in Wanted(items);
    DemandPositive(items, p);
  }

  /** A claim that comes back after its release is honoured again: the guard is the live rows only. */
  lemma LateDuplicateReservesAgain()
    ensures exists s: Store, o: int, items: seq<Item> ::
              && Reserve(s, o, items).ok
              && var freed := Release(Reserve(s, o, items).store, o).store;
              && o !in freed.held
              && o in Reserve(freed, o, items).store.held
  {
    var s, items := Store(map[7 := 1], map[]), [Item(7, 1)];
    assert Demand(items[..0], 7) == 0;
    assert Demand(items, 7) == 1;
    assert items[0].product in Wanted(items);
    assert Wanted(items) == map[7 := 1];
    var s1 := Reserve(s, 3, items).store;
    assert s1 == Store(map[7 := 0], map[3 := map[7 := 1]]);
    var freed := Release(s1, 3).store;
    assert freed == s;
    assert 3 in Reserve(freed, 3, items).store.held;
  }

  // ----- conservation and no oversell, over every run -----

  /** Sum, over all orders, of the reservation rows of product `p`. */
  ghost function HeldTotal(held: map<int, map<int, int>>, p: int): int
    decreases |held|
  {
    if forall o :: o !in held then 0
    else
      var o :| o in held;
      Quantity(held[o], p) + HeldTotal(held - {o}, p)
  }

  lemma {:induction false} HeldTotalRemove(held: map<int, map<int, int>>, o: int, p: int)
    requires o in held
    ensures HeldTotal(held, p) == Quantity(held[o], p) + HeldTotal(held - {o}, p)
    decreases |held|
  {
    var k :| k in held && HeldTotal(held, p) == Quantity(held[k], p) + HeldTotal(held - {k}, p);
    if k != o {
      HeldTotalRemove(held - {k}, o, p);
      HeldTotalRemove(held - {o}, k, p);
      assert held - {k} - {o} == held - {o} - {k};
    }
  }

  lemma HeldTotalAdd(held: map<int, map<int, int>>, o: int, rows: map<int, int>, p: int)
    requires o !in held
    ensures HeldTotal(held[o := rows], p) == Quantity(rows, p) + HeldTotal(held, p)
  {
    HeldTotalRemove(held[o := rows], o, p);
    assert held[o := rows] - {o} == held;
  }

  /** The quantity every product was first created with. */
  function Created(cs: seq<Command>): map<int, int> {
    if cs == [] then map[]
    else
      var before, c := Created(cs[..|cs| - 1]), cs[|cs| - 1];
      if c.Stock? && c.product !in before then before[c.product := c.quantity] else before
  }

  /** Every row names an existing product, and nothing is lost or minted. */
  ghost predicate Conserved(s: Store, created: map<int, int>) {
    && s.available.Keys == created.Keys
    && (forall o | o in s.held :: s.held[o] != map[] && s.held[o].Keys <= created.Keys)
    && (forall p | p in created :: s.available[p] + HeldTotal(s.held, p) == created[p])
  }

  /** No product is oversold and no row is empty or negative. */
  predicate Sound(s: Store) {
    && (forall p | p in s.available :: 0 <= s.available[p])
    && (forall o, p | o in s.held && p in s.held[o] :: 0 < s.held[o][p])
  }

  lemma ReserveConserves(s: Store, o: int, items: seq<Item>, created: map<int, int>)
    requires Conserved(s, created)
    ensures Conserved(Reserve(s, o, items).store, created)
  {
    var w, s1 := Wanted(items), Reserve(s, o, items).store;
    if o !in s.held && Fits(s.available, w) {
      forall p | p in created ensures s1.available[p] + HeldTotal(s1.held, p) == created[p] {
        if w != map[] {
          HeldTotalAdd(s.held, o, w, p);
        }
      }
    }
  }

  lemma ReleaseConserves(s: Store, o: int, created: map<int, int>)
    requires Conserved(s, created)
    ensures Conserved(Release(s, o).store, created)
  {
    if o in s.held {
      var s1 := Release(s, o).store;
      forall p | p in created ensures s1.available[p] + HeldTotal(s1.held, p) == created[p] {
        HeldTotalRemove(s.held, o, p);
      }
    }
  }

  lemma {:induction false} NoRowsOf(held: map<int, map<int, int>>, p: int)
    requires forall o | o in held :: p !in held[o]
    ensures HeldTotal(held, p) == 0
    decreases |held|
  {
    if exists o :: o in held {
      var o :| o in held;
      HeldTotalRemove(held, o, p);
      NoRowsOf(held - {o}, p);
    }
  }

  lemma StockConserves(s: Store, p: int, q: int, created: map<int, int>)
    requires Conserved(s, created) && p !in created
    ensures Conserved(s.(available := s.available[p := q]), created[p := q])
  {
    NoRowsOf(s.held, p);
  }

  lemma ReserveSound(s: Store, o: int, items: seq<Item>)
    requires Sound(s) && forall i | i in items :: 0 < i.quantity
    ensures Sound(Reserve(s, o, items).store)
    ensures forall p | p in s.available :: Reserve(s, o, items).store.available[p] <= s.available[p]
  {
    forall p ensures p in Wanted(items) ==> 0 < Wanted(items)[p] {
      DemandPositive(items, p);
    }
  }

  lemma ReleaseSound(s: Store, o: int)
    requires Sound(s)
    ensures Sound(Release(s, o).store)
  {
  }

  lemma {:induction false} RunSound(s: Store, cs: seq<Command>)
    requires Sound(s) && forall c | c in cs :: Admissible(c)
    ensures Sound(Run(s, cs))
  {
    if cs != [] {
      var init, c := cs[..|cs| - 1], cs[|cs| - 1];
      RunSound(s, init);
      assert Admissible(c);
      match c
      case Stock(_, _) =>
      case Claim(o, items) => ReserveSound(Run(s, init), o, items);
      case Free(o) => ReleaseSound(Run(s, init), o);
    }
  }

  /** After every run from an empty database, stock plus rows equals what was created. */
  lemma {:induction false} RunConserves(cs: seq<Command>)
    ensures Conserved(Run(EMPTY, cs), Created(cs))
  {
    if cs != [] {
      var init := cs[..|cs| - 1];
      RunConserves(init);
      var s := Run(EMPTY, init);
      match cs[|cs| - 1]
      case Stock(p, q) =>
        if p !in s.available {
          StockConserves(s, p, q, Created(init));
        }
      case Claim(o, items) => ReserveConserves(s, o, items, Created(init));
      case Free(o) => ReleaseConserves(s, o, Created(init));
    }
  }

  /** No run of admissible commands ever oversells: conservation then bounds what orders hold. */
  lemma NoOversell(cs: seq<Command>, p: int)
    requires forall c | c in cs :: Admissible(c)
    requires p in Created(cs)
    ensures p in Run(EMPTY, cs).available && 0 <= Run(EMPTY, cs).available[p]
    ensures HeldTotal(Run(EMPTY, cs).held, p) <= Created(cs)[p]
  {
    RunConserves(cs);
    RunSound(EMPTY, cs);
  }

  // ----- duplicates -----

  /** In `s`, claiming for `o` has no effect and the answer is `v`. */
  predicate Settled(s: Store, o: int, items: seq<Item>, v: bool) {
    Reserve(s, o, items) == Outcome(s, v)
  }

  lemma ClaimSettles(s: Store, o: int, items: seq<Item>)
    ensures Settled(Reserve(s, o, items).store, o, items, Reserve(s, o, items).ok)
  {
    if Wanted(items) == map[] {
      assert Take(s.available, map[]) == s.available;
    }
  }

  /** Success is remembered, and a shortage can only persist while stock falls. */
  lemma SettledPersists(s: Store, o: int, items: seq<Item>, v: bool, o': int, items': seq<Item>)
    requires Settled(s, o, items, v) && o != o'
    requires forall i | i in items' :: 0 < i.quantity
    ensures Settled(Reserve(s, o', items').store, o, items, v)
  {
    var s1 := Reserve(s, o', items').store;
    forall p ensures p in Wanted(items') ==> 0 < Wanted(items')[p] {
      DemandPositive(items', p);
    }
    if !v {
      var p :| p in Wanted(items) && !(p in s.available && Wanted(items)[p] <= s.available[p]);
      assert !Fits(s1.available, Wanted(items));
    } else if o !in s.held {
      assert Wanted(items) == map[] && Take(s1.available, map[]) == s1.available;
    }
  }

  function Deliver(s: Store, items: map<int, seq<Item>>, ds: seq<int>): Store
    requires forall o | o in ds :: o in items
  {
    if ds == [] then s
    else Reserve(Deliver(s, items, ds[..|ds| - 1]), ds[|ds| - 1], items[ds[|ds| - 1]]).store
  }

  function Answer(s: Store, items: map<int, seq<Item>>, ds: seq<int>, i: nat): bool
    requires i < |ds| && forall o | o in ds :: o in items
  {
    Reserve(Deliver(s, items, ds[..i]), ds[i], items[ds[i]]).ok
  }

  function Firsts(ds: seq<int>): (r: seq<int>)
    ensures forall o :: o in r <==> o in ds
  {
    if ds == [] then []
    else
      var init, last := ds[..|ds| - 1], ds[|ds| - 1];
      assert ds == init + [last];
      if last in init then Firsts(init) else Firsts(init) + [last]
  }

  lemma {:induction false} AnswersSettled(s: Store, items: map<int, seq<Item>>, ds: seq<int>, i: nat)
    requires i < |ds| && forall o | o in ds :: o in items
    requires forall o, it | o in items && it in items[o] :: 0 < it.quantity
    ensures Settled(Deliver(s, items, ds), ds[i], items[ds[i]], Answer(s, items, ds, i))
  {
    var init, last := ds[..|ds| - 1], ds[|ds| - 1];
    var before := Deliver(s, items, init);
    ClaimSettles(before, last, items[last]);
    if i < |init| {
      AnswersSettled(s, items, init, i);
      assert init[..i] == ds[..i];
      if ds[i] != last {
        SettledPersists(before, ds[i], items[ds[i]], Answer(s, items, ds, i), last, items[last]);
      }
    }
  }

  lemma {:induction false} FirstsSuffice(s: Store, items: map<int, seq<Item>>, ds: seq<int>)
    requires forall o | o in ds :: o in items
    requires forall o, it | o in items && it in items[o] :: 0 < it.quantity
    ensures Deliver(s, items, ds) == Deliver(s, items, Firsts(ds))
  {
    if ds != [] {
      var init, last := ds[..|ds| - 1], ds[|ds| - 1];
      assert ds == init + [last];
      FirstsSuffice(s, items, init);
      if last in init {
        var i :| 0 <= i < |init| && init[i] == last;
        AnswersSettled(s, items, init, i);
      } else {
        var fs := Firsts(ds);
        assert fs[..|fs| - 1] == Firsts(init);
      }
    }
  }

  /** Redelivering claims is invisible: same store, and every delivery hears its first answer. */
  lemma DedupEquivalence(s: Store, items: map<int, seq<Item>>, ds: seq<int>)
    requires forall o | o in ds :: o in items
    requires forall o, it | o in items && it in items[o] :: 0 < it.quantity
    ensures Deliver(s, items, ds) == Deliver(s, items, Firsts(ds))
    ensures forall i, j | 0 <= i < |ds| && 0 <= j < |Firsts(ds)| && ds[i] == Firsts(ds)[j] ::
              Answer(s, items, ds, i) == Answer(s, items, Firsts(ds), j)
  {
    var fs := Firsts(ds);
    FirstsSuffice(s, items, ds);
    forall i, j | 0 <= i < |ds| && 0 <= j < |fs| && ds[i] == fs[j]
      ensures Answer(s, items, ds, i) == Answer(s, items, fs, j)
    {
      AnswersSettled(s, items, ds, i);
      AnswersSettled(s, items, fs, j);
    }
  }

  // ----- verdict monotonicity -----

  lemma {:induction false} HeldStays(s: Store, cs: seq<Command>, o: int, i: nat)
    requires i <= |cs| && o in Run(s, cs[..i]).held
    requires Free(o) !in cs
    ensures o in Run(s, cs).held
    decreases |cs|
  {
    if i < |cs| {
      var n := |cs| - 1;
      assert cs[..n][..i] == cs[..i];
      HeldStays(s, cs[..n], o, i);
    } else {
      assert cs[..i] == cs;
    }
  }

  /** Until it is released, an order hears some number of refusals and from then on only acceptance. */
  lemma VerdictsRiseOnce(s: Store, cs: seq<Command>, o: int, items: seq<Item>, i: nat, j: nat)
    requires i < j < |cs| && cs[i] == cs[j] == Claim(o, items)
    requires Free(o) !in cs
    ensures Verdict(s, cs, i) ==> Verdict(s, cs, j)
  {
    if Verdict(s, cs, i) && Wanted(items) != map[] {
      var upto := cs[..i + 1];
      assert upto[..i] == cs[..i];
      assert o in Run(s, upto).held;
      assert cs[..j][..i + 1] == upto;
      HeldStays(s, cs[..j], o, i + 1);
    }
  }
}
