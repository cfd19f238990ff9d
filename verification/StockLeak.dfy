/**
 * When an order holds stock, in terms of the last thing inventory did about it; and a run whose late
 * duplicate leaves a cancelled order with stock that nothing will ever release.
 */
module StockLeak {
  import opened Domain
  import opened Allocation
  import opened Saga
  import opened SagaInvariant
  import opened Mesh
  import opened MeshSafety
  import opened Measures
  import opened Termination

  // ----- the last word of inventory -----

  datatype Touch = Untouched | Claimed(granted: bool) | Freed

  /** Whether this step commits a claim or a release of order `o`. */
  predicate Touches(s: Mesh, a: Action, o: int) {
    && Enabled(s, a) && a.Commit? && a.x.copy.queue == InventoryQ && a.x.copy.event.order == o
    && (a.x.copy.event.OrderCreated? || a.x.copy.event.OrderCancelled?)
  }

  function TouchOf(s: Mesh, a: Action, o: int): Touch
    requires Touches(s, a, o)
  {
    if a.x.copy.event.OrderCancelled? then Freed
    else Claimed(Reserve(s.world.stock, o, a.x.copy.event.items).ok)
  }

  /** What the last inventory commit about `o` in this run was. */
  function LastTouch(acts: seq<Action>, o: int): Touch {
    if acts == [] then Untouched
    else
      var init, a := acts[..|acts| - 1], acts[|acts| - 1];
      if Touches(Exec(QUIET, init), a, o) then TouchOf(Exec(QUIET, init), a, o) else LastTouch(init, o)
  }

  lemma TouchDecides(s: Mesh, a: Action, o: int)
    requires Inv(s) && Touches(s, a, o)
    ensures o in Step(s, a).world.stock.held <==> TouchOf(s, a, o) == Claimed(true)
  {
    HandledIsJustified(s, a.x);
    assert OrderOk(s.world, o);
    PayloadPositive(s.world.orders[o].lines);
  }

  lemma OthersDoNotTouch(s: Mesh, a: Action, o: int)
    requires Enabled(s, a) && !Touches(s, a, o)
    ensures o in Step(s, a).world.stock.held <==> o in s.world.stock.held
  {
    if !a.Commit? && !a.WriteCancel? && !a.NewProduct? && !a.NewOrder? && !a.MarkShipment? {
      DatabasesUntouched(s, a);
    } else if a.Commit? && a.x.copy.queue == InventoryQ {
      OtherOrdersKeepStock(a.x.copy.event, s.world, a.env, o);
    }
  }

  lemma OtherOrdersKeepStock(e: Event, w: World, env: Env, o: int)
    requires e.order != o || !(e.OrderCreated? || e.OrderCancelled?)
    ensures o in Handle(InventoryQ, e, w, env).world.stock.held <==> o in w.stock.held
  {
    if e.OrderCreated? {
      OthersUntouched(w.stock, e.order, e.items, o);
    } else if e.OrderCancelled? {
      OthersUntouched(w.stock, e.order, [], o);
    }
  }

  /** In every at-least-once run an order holds stock if and only if inventory's last word on it was a granted claim. */
  lemma {:induction false} HeldIffClaimedLast(acts: seq<Action>, o: int)
    ensures o in Exec(QUIET, acts).world.stock.held <==> LastTouch(acts, o) == Claimed(true)
  {
    if acts != [] {
      var init, a := acts[..|acts| - 1], acts[|acts| - 1];
      var s := Exec(QUIET, init);
      HeldIffClaimedLast(init, o);
      RunInv(init);
      if Touches(s, a, o) {
        TouchDecides(s, a, o);
      } else if Enabled(s, a) {
        OthersDoNotTouch(s, a, o);
      }
    }
  }

  // ----- working off what is queued -----

  /** Nothing went wrong with this copy, and inventory has nothing left to commit for it. */
  predicate CalmSlot(x: Slot) {
    && x.place !in {Failed, Requeued, Dead}
    && (x.copy.queue == InventoryQ ==> x.place != Ready && x.place != Taken)
    && (x.place.Committed? && x.place.out.Some? ==> InventoryQ !in Bound(TypeOf(x.place.out.value)))
  }

  predicate Calm(s: Mesh) {
    forall x | x in s.slots :: CalmSlot(x)
  }

  /** What a handler without trouble does next with a copy. */
  function NextSmooth(s: Mesh, x: Slot): Action {
    match x.place
    case Ready => Fetch(x)
    case Taken => Commit(x, Env(NextId(s.world.shipments), 2026, ""))
    case Committed(Some(_)) => Publish(x)
    case _ => Ack(x)
  }

  lemma HandlersAnnounceNoClaims(q: Queue, e: Event, w: World, env: Env)
    ensures var out := Handle(q, e, w, env).out; out.Some? ==> InventoryQ !in Bound(TypeOf(out.value))
  {
  }

  lemma SmoothIsPossible(s: Mesh, x: Slot)
    requires x in s.slots && CalmSlot(x)
    ensures var a := NextSmooth(s, x); Enabled(s, a) && OnSlot(a) && !IsRedelivery(a) && a.x == x
  {
  }

  lemma NewCopyIsCalm(s: Mesh, x: Slot, y: Slot)
    requires x in s.slots && CalmSlot(x) && Enabled(s, NextSmooth(s, x))
    requires y in Step(s, NextSmooth(s, x)).slots && y !in s.slots && y.place.Ready?
    ensures CalmSlot(y)
  {
    Origin(s, NextSmooth(s, x), y);
    if NextSmooth(s, x).Publish? {
      assert Step(s, NextSmooth(s, x)).published == s.published + [x.place.out.value];
    } else {
      MoverOrigin(s, NextSmooth(s, x), y);
    }
  }

  lemma MovedSlotIsCalm(s: Mesh, x: Slot, y: Slot)
    requires x in s.slots && CalmSlot(x) && Enabled(s, NextSmooth(s, x)) && y.copy == x.copy
    requires NextPlace(s, NextSmooth(s, x)) == Some(y.place) && !y.place.Ready?
    ensures CalmSlot(y)
  {
    HandlersAnnounceNoClaims(x.copy.queue, x.copy.event, s.world, Env(NextId(s.world.shipments), 2026, ""));
  }

  lemma SmoothKeepsSlotCalm(s: Mesh, x: Slot, y: Slot)
    requires Calm(s) && x in s.slots && Enabled(s, NextSmooth(s, x)) && y in Step(s, NextSmooth(s, x)).slots
    ensures CalmSlot(y)
  {
    assert CalmSlot(x);
    if y !in s.slots {
      if y.place.Ready? {
        NewCopyIsCalm(s, x, y);
      } else {
        SmoothIsPossible(s, x);
        SlotBecame(s, NextSmooth(s, x), y);
        MovedSlotIsCalm(s, x, y);
      }
    }
  }

  lemma SmoothKeepsRest(s: Mesh, x: Slot)
    requires Calm(s) && x in s.slots && Enabled(s, NextSmooth(s, x))
    ensures var s1 := Step(s, NextSmooth(s, x));
            s1.tasks == s.tasks && s1.world.stock == s.world.stock && s1.world.orders.Keys == s.world.orders.Keys
  {
    if x.place.Taken? {
      OnlyInventoryMovesStock(x.copy.queue, x.copy.event, s.world, Env(NextId(s.world.shipments), 2026, ""));
    } else {
      DatabasesUntouched(s, NextSmooth(s, x));
    }
  }

  lemma OnlyInventoryMovesStock(q: Queue, e: Event, w: World, env: Env)
    requires q != InventoryQ
    ensures Handle(q, e, w, env).world.stock == w.stock
    ensures Handle(q, e, w, env).world.orders.Keys == w.orders.Keys
  {
  }

  /** Some run without trouble from a calm mesh empties it, without touching stock or pending requests. */
  lemma {:induction false} CalmDrains(m0: Mesh, s: Mesh) returns (s1: Mesh)
    requires Reaches(m0, s) && Calm(s)
    ensures Reaches(m0, s1) && s1.slots == multiset{} && s1.tasks == s.tasks
    ensures s1.world.stock == s.world.stock && s1.world.orders.Keys == s.world.orders.Keys
    decreases Work(s)
  {
    if x :| x in s.slots {
      var a := NextSmooth(s, x);
      SmoothIsPossible(s, x);
      SlotStepWork(s, a);
      SmoothKeepsRest(s, x);
      forall y | y in Step(s, a).slots ensures CalmSlot(y) {
        SmoothKeepsSlotCalm(s, x, y);
      }
      ReachesNext(m0, s, a);
      s1 := CalmDrains(m0, Step(s, a));
    } else {
      s1 := s;
    }
  }

  // ----- the leak -----

  /** The only copies inventory still has to handle are `c` and `d`, both waiting; the others are waiting too. */
  ghost predicate Waiting(s: Mesh, rest: multiset<Slot>, c: Copy, d: Copy) {
    && s.slots == rest + multiset{Slot(c, Ready)} + multiset{Slot(d, Ready)}
    && (forall x | x in rest :: x.place == Ready && x.copy.queue != InventoryQ)
    && c.queue == InventoryQ && c.event.OrderCreated?
    && d.queue == InventoryQ && d.event.OrderCancelled? && d.event.order == c.event.order
  }

  /** One step of one copy, next to everything else. */
  lemma OneMoves(m0: Mesh, s: Mesh, rest: multiset<Slot>, c: Copy, a: Action) returns (s1: Mesh)
    requires Reaches(m0, s) && Enabled(s, a) && (a.Fetch? || a.Commit? || a.Crash?)
    requires a.x.copy == c && s.slots == rest + multiset{a.x}
    ensures Reaches(m0, s1) && s1 == Step(s, a) && s1.slots == rest + multiset{Slot(c, NextPlace(s, a).value)}
    ensures s1.tasks == s.tasks && (!a.Commit? ==> s1.world == s.world)
  {
    ReachesNext(m0, s, a);
    s1 := Step(s, a);
  }

  /** One copy is fetched and its transaction committed, next to everything else. */
  lemma OneCommits(m0: Mesh, s: Mesh, rest: multiset<Slot>, c: Copy, env: Env) returns (s1: Mesh)
    requires Reaches(m0, s) && s.slots == rest + multiset{Slot(c, Ready)} && FreshId(s.world.shipments, env.id)
    ensures var r := Handle(c.queue, c.event, s.world, env);
            && Reaches(m0, s1) && s1.slots == rest + multiset{Slot(c, Committed(r.out))}
            && s1.world == r.world && s1.tasks == s.tasks
  {
    var s0 := OneMoves(m0, s, rest, c, Fetch(Slot(c, Ready)));
    s1 := OneMoves(m0, s0, rest, c, Commit(Slot(c, Taken), env));
  }

  /** A claim that is granted, and a process that dies before announcing it. */
  lemma ClaimAndDie(m0: Mesh, s: Mesh, others: multiset<Slot>, c: Copy) returns (s1: Mesh)
    requires Reaches(m0, s) && s.slots == others + multiset{Slot(c, Ready)}
    requires c.queue == InventoryQ && c.event.OrderCreated?
    requires Reserve(s.world.stock, c.event.order, c.event.items).ok
    ensures Reaches(m0, s1) && s1.slots == s.slots && s1.tasks == s.tasks && s1.world.orders == s.world.orders
    ensures s1.world.stock == Reserve(s.world.stock, c.event.order, c.event.items).store
  {
    var claimed := OneCommits(m0, s, others, c, Env(NextId(s.world.shipments), 2026, ""));
    s1 := OneMoves(m0, claimed, others, c, Crash(Slot(c, Committed(Some(StockReserved(c.event.order, c.event.items))))));
  }

  /** Next to everything else, the copy of a release has been committed. */
  ghost predicate ReleaseCommitted(s: Mesh, others: multiset<Slot>, d: Copy) {
    exists out: Option<Event> ::
      && s.slots == others + multiset{Slot(d, Committed(out))}
      && (out.Some? ==> InventoryQ !in Bound(TypeOf(out.value)))
  }

  /** The release gives back exactly what the claim took. */
  lemma FreesAgain(m0: Mesh, s: Mesh, others: multiset<Slot>, d: Copy, before: Store, items: seq<Item>)
    returns (s1: Mesh)
    requires Reaches(m0, s) && s.slots == others + multiset{Slot(d, Ready)}
    requires d.queue == InventoryQ && d.event.OrderCancelled?
    requires d.event.order !in before.held && Reserve(before, d.event.order, items).ok
    requires s.world.stock == Reserve(before, d.event.order, items).store
    ensures Reaches(m0, s1) && ReleaseCommitted(s1, others, d)
    ensures s1.world.stock == before && s1.world.orders == s.world.orders && s1.tasks == s.tasks
  {
    var env := Env(NextId(s.world.shipments), 2026, "");
    s1 := OneCommits(m0, s, others, d, env);
    ReleaseUndoesReserve(before, d.event.order, items);
    HandlersAnnounceNoClaims(InventoryQ, d.event, s.world, env);
  }

  /** Claim, process death before the announcement, release, and the claim again. */
  lemma ClaimComesBack(m0: Mesh, s: Mesh, rest: multiset<Slot>, c: Copy, d: Copy) returns (s1: Mesh)
    requires Reaches(m0, s) && Waiting(s, rest, c, d)
    requires var o := c.event.order;
             && o !in s.world.stock.held && Reserve(s.world.stock, o, c.event.items).ok
             && Wanted(c.event.items) != map[]
    ensures Reaches(m0, s1) && Calm(s1) && s1.tasks == s.tasks
    ensures c.event.order in s1.world.stock.held && s1.world.orders == s.world.orders
  {
    var x, y := Slot(c, Ready), Slot(d, Ready);
    assert s.slots == rest + multiset{y} + multiset{x} == rest + multiset{x} + multiset{y};
    var died := ClaimAndDie(m0, s, rest + multiset{y}, c);
    var freed := FreesAgain(m0, died, rest + multiset{x}, d, s.world.stock, c.event.items);
    s1 := CommitsLast(m0, freed, rest, c, d);
    ClaimedIsHeld(s.world.stock, c.event.order, c.event.items);
  }

  lemma ClaimedIsHeld(s: Store, o: int, items: seq<Item>)
    requires Reserve(s, o, items).ok && Wanted(items) != map[]
    ensures o in Reserve(s, o, items).store.held
  {
  }

  /** With the release committed, the waiting claim is committed too; then everything is calm. */
  lemma CommitsLast(m0: Mesh, s: Mesh, rest: multiset<Slot>, c: Copy, d: Copy) returns (s1: Mesh)
    requires Reaches(m0, s) && c.queue == InventoryQ && c.event.OrderCreated?
    requires forall x | x in rest :: x.place == Ready && x.copy.queue != InventoryQ
    requires ReleaseCommitted(s, rest + multiset{Slot(c, Ready)}, d)
    ensures Reaches(m0, s1) && Calm(s1) && s1.tasks == s.tasks
    ensures s1.world.stock == Reserve(s.world.stock, c.event.order, c.event.items).store
    ensures s1.world.orders == s.world.orders
  {
    var out: Option<Event> :| s.slots == rest + multiset{Slot(c, Ready)} + multiset{Slot(d, Committed(out))}
                              && (out.Some? ==> InventoryQ !in Bound(TypeOf(out.value)));
    var env, z := Env(NextId(s.world.shipments), 2026, ""), Slot(d, Committed(out));
    assert s.slots == rest + multiset{z} + multiset{Slot(c, Ready)};
    s1 := OneCommits(m0, s, rest + multiset{z}, c, env);
    HandlersAnnounceNoClaims(InventoryQ, c.event, s.world, env);
    forall x | x in s1.slots ensures CalmSlot(x) {
      assert x in rest || x == z || x == Slot(c, Committed(Handle(InventoryQ, c.event, s.world, env).out));
    }
  }

  /** A cancelled order holds stock, and no message or request is left that could release it. */
  predicate Leaked(s: Mesh, o: int) {
    && s.slots == multiset{} && s.tasks == multiset{}
    && o in s.world.orders && s.world.orders[o].status == Cancelled && o in s.world.stock.held
  }

  /** The pending cancellation is written, and the process dies before announcing it. */
  lemma CancelUnannounced(m0: Mesh, s: Mesh, o: int) returns (s1: Mesh)
    requires Reaches(m0, s) && s.slots == multiset{} && s.tasks == multiset{CancelWrite(o)}
    requires o in s.world.orders && o in s.world.stock.held
    ensures Reaches(m0, s1) && Leaked(s1, o)
  {
    var e := Cancellation(s.world.orders, o);
    ReachesNext(m0, s, WriteCancel(o));
    var written := Step(s, WriteCancel(o));
    SetStatusGrows(s.world.orders, o, Cancelled);
    assert written.tasks == multiset{Announce(e)};
    ReachesNext(m0, written, Drop(Announce(e)));
    s1 := Step(written, Drop(Announce(e)));
  }

  /** From any state with a claim and a cancellation of an order waiting, a late duplicate can leak its stock. */
  lemma LateDuplicateLeaks(m0: Mesh, s: Mesh, rest: multiset<Slot>, c: Copy, d: Copy) returns (s1: Mesh)
    requires Reaches(m0, s) && Waiting(s, rest, c, d)
    requires var o := c.event.order;
             && o in s.world.orders && s.tasks == multiset{CancelWrite(o)}
             && o !in s.world.stock.held && Reserve(s.world.stock, o, c.event.items).ok
             && Wanted(c.event.items) != map[]
    ensures Reaches(m0, s1) && Leaked(s1, c.event.order)
  {
    var back := ClaimComesBack(m0, s, rest, c, d);
    var drained := CalmDrains(m0, back);
    s1 := CancelUnannounced(m0, drained, c.event.order);
  }

  // ----- and such a state is reachable -----

  const LINES := [Line(1, 1, 100)]

  lemma AsksCancel(m0: Mesh, s: Mesh, o: int) returns (s1: Mesh)
    requires Reaches(m0, s) && Cancellable(s.world.orders, o)
    ensures Reaches(m0, s1) && s1 == s.(tasks := s.tasks + multiset{CancelWrite(o)})
  {
    ReachesNext(m0, s, AskCancel(o));
    s1 := Step(s, AskCancel(o));
  }

  lemma PublishesTask(m0: Mesh, s: Mesh, e: Event) returns (s1: Mesh)
    requires Reaches(m0, s) && Announce(e) in s.tasks
    ensures Reaches(m0, s1) && s1 == Post(s.(tasks := s.tasks - multiset{Announce(e)}), e)
  {
    ReachesNext(m0, s, PublishTask(e));
    s1 := Step(s, PublishTask(e));
  }

  /** One product, and an order for one unit of it. */
  lemma OrderStored() returns (s: Mesh)
    ensures Reaches(QUIET, s) && s.slots == multiset{} && s.published == []
    ensures s.tasks == multiset{Announce(Placed(7, 2, LINES))}
    ensures s.world.orders == map[7 := Order(2, Total(LINES), Pending, LINES)]
    ensures s.world.stock == Store(map[1 := 5], map[])
  {
    ReachesItself(QUIET);
    ReachesNext(QUIET, QUIET, NewProduct(1, 5));
    var s1 := Step(QUIET, NewProduct(1, 5));
    ReachesNext(QUIET, s1, NewOrder(7, 2, LINES));
    s := Step(s1, NewOrder(7, 2, LINES));
  }

  /** Two requests to cancel it are let through, and the order is announced. */
  lemma OrderWaits() returns (s: Mesh)
    ensures Reaches(QUIET, s) && s.slots == FanOut(0, Placed(7, 2, LINES), 0, 0)
    ensures s.tasks == multiset{CancelWrite(7)} + multiset{CancelWrite(7)} && |s.published| == 1
    ensures s.world.orders == map[7 := Order(2, Total(LINES), Pending, LINES)]
    ensures s.world.stock == Store(map[1 := 5], map[])
  {
    var s0 := OrderStored();
    var s1 := AsksCancel(QUIET, s0, 7);
    var s2 := AsksCancel(QUIET, s1, 7);
    s := PublishesTask(QUIET, s2, Placed(7, 2, LINES));
    assert s0.tasks - multiset{Announce(Placed(7, 2, LINES))} == multiset{};
  }

  lemma WritesCancel(m0: Mesh, s: Mesh, o: int) returns (s1: Mesh)
    requires Reaches(m0, s) && o in s.world.orders && CancelWrite(o) in s.tasks
    ensures Reaches(m0, s1) && s1.slots == s.slots && s1.published == s.published
    ensures s1.tasks == s.tasks - multiset{CancelWrite(o)} + multiset{Announce(Cancellation(s.world.orders, o))}
    ensures s1.world.stock == s.world.stock && o in s1.world.orders
  {
    ReachesNext(m0, s, WriteCancel(o));
    s1 := Step(s, WriteCancel(o));
    SetStatusGrows(s.world.orders, o, Cancelled);
  }

  /** One of the two requests is carried out: claim and release wait together. */
  lemma CancelWaits() returns (s: Mesh)
    ensures Reaches(QUIET, s) && s.tasks == multiset{CancelWrite(7)}
    ensures s.slots == FanOut(0, Placed(7, 2, LINES), 0, 0) + FanOut(1, OrderCancelled(7, 2), 0, 0)
    ensures 7 in s.world.orders && s.world.stock == Store(map[1 := 5], map[])
  {
    var s0 := OrderWaits();
    var s1 := WritesCancel(QUIET, s0, 7);
    s := PublishesTask(QUIET, s1, OrderCancelled(7, 2));
  }

  lemma LinesFit(s: Store)
    requires s == Store(map[1 := 5], map[])
    ensures Reserve(s, 7, Payload(LINES)).ok && Wanted(Payload(LINES)) != map[]
  {
    var items := Payload(LINES);
    assert items == [Item(1, 1)];
    assert Demand(items[..0], 1) == 0 && Demand(items, 1) == 1;
    ReserveVerdict(s, 7, items);
    assert items[0].product in Wanted(items);
  }

  lemma ClaimFansOut(id: nat, p: Event)
    requires p.OrderCreated?
    ensures FanOut(id, p, 0, 0) ==
            multiset{Slot(Copy(NotificationQ, id, p, 0, 0), Ready)} + multiset{Slot(Copy(InventoryQ, id, p, 0, 0), Ready)}
  {
    var qs := Bound(TypeOf(p));
    assert qs[1..] == [NotificationQ] && qs[1..][1..] == [];
    assert Copies(qs[1..], id, p, 0, 0) == multiset{Slot(Copy(NotificationQ, id, p, 0, 0), Ready)};
  }

  lemma CancelFansOut(id: nat, e: Event)
    requires e.OrderCancelled?
    ensures FanOut(id, e, 0, 0) == multiset{Slot(Copy(InventoryQ, id, e, 0, 0), Ready)}
  {
    assert Bound(TypeOf(e))[1..] == [];
  }

  /** An at-least-once run really ends at rest with a cancelled order holding stock. */
  lemma LeakIsReachable()
    ensures exists acts, o :: Leaked(Exec(QUIET, acts), o)
  {
    var s := CancelWaits();
    var p, e := Placed(7, 2, LINES), OrderCancelled(7, 2);
    ClaimFansOut(0, p);
    CancelFansOut(1, e);
    LinesFit(s.world.stock);
    var c, d := Copy(InventoryQ, 0, p, 0, 0), Copy(InventoryQ, 1, e, 0, 0);
    var s1 := LateDuplicateLeaks(QUIET, s, multiset{Slot(Copy(NotificationQ, 0, p, 0, 0), Ready)}, c, d);
    var acts :| Ran(QUIET, acts, s1);
    assert Leaked(Exec(QUIET, acts), 7);
  }

  /** At rest a cancelled order's stock has leaked if and only if inventory's last word on it was a granted claim. */
  lemma LeakedIff(acts: seq<Action>, o: int)
    requires var s := Exec(QUIET, acts);
             && s.slots == multiset{} && s.tasks == multiset{}
             && o in s.world.orders && s.world.orders[o].status == Cancelled
    ensures Leaked(Exec(QUIET, acts), o) <==> LastTouch(acts, o) == Claimed(true)
  {
    HeldIffClaimedLast(acts, o);
  }
}
