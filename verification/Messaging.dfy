/** The consumer as the program it is: registration, binding, and one handling from delivery to ack. */
module Messaging {
  import opened Domain
  import opened Saga
  import opened Mesh

  /** The event types each service registers a handler for. */
  function Registered(q: Queue): set<EventType> {
    match q
    case OrderQ => {STOCK_RESERVED, STOCK_UNAVAILABLE, SHIPMENT_CREATED}
    case InventoryQ => {ORDER_CREATED, ORDER_CANCELLED}
    case ShippingQ => {STOCK_RESERVED}
    case NotificationQ => {ORDER_CREATED, STOCK_RESERVED, SHIPMENT_CREATED, SHIPMENT_DELIVERED}
  }

  /** Binding every registered type gives exactly the fan-out the exchange is modelled with. */
  lemma TopologyMatches(q: Queue, t: EventType)
    ensures q in Bound(t) <==> t in Registered(q)
  {
    match t
    case ORDER_CREATED =>
    case ORDER_CANCELLED =>
    case STOCK_RESERVED =>
    case STOCK_UNAVAILABLE =>
    case STOCK_RELEASED =>
    case SHIPMENT_CREATED =>
    case SHIPMENT_DELIVERED =>
  }

  /** An event no handler is registered for would change nothing and announce nothing. */
  lemma UnregisteredIsNoOp(q: Queue, e: Event, w: World, env: Env)
    requires TypeOf(e) !in Registered(q)
    ensures Handle(q, e, w, env) == Effect(w, None)
  {
  }

  function Name(q: Queue): string {
    match q
    case OrderQ => "order.events"
    case InventoryQ => "inventory.events"
    case ShippingQ => "shipping.events"
    case NotificationQ => "notification.events"
  }

  /** The key a queue's rejected messages are dead-lettered under. */
  function DeadKey(q: Queue): string {
    Name(q) + ".dead"
  }

  lemma DeadKeysDistinct(q: Queue, q': Queue)
    ensures DeadKey(q) == DeadKey(q') ==> q == q'
  {
    assert |DeadKey(OrderQ)| == 17 && |DeadKey(InventoryQ)| == 21;
    assert |DeadKey(ShippingQ)| == 20 && |DeadKey(NotificationQ)| == 24;
  }

  /** What a queue rejects reaches its own dead-letter queue and no other. */
  predicate DeadLettersApart(keys: map<Queue, string>, bindings: set<(string, Queue)>) {
    (forall q :: q in keys) &&
    (forall q, d :: (keys[q], d) in bindings <==> d == q)
  }

  /** What the four services declare together. */
  function AllDeadKeys(): map<Queue, string> {
    map[OrderQ := DeadKey(OrderQ)][InventoryQ := DeadKey(InventoryQ)]
       [ShippingQ := DeadKey(ShippingQ)][NotificationQ := DeadKey(NotificationQ)]
  }

  function AllDeadBindings(): set<(string, Queue)> {
    {(DeadKey(OrderQ), OrderQ)} + {(DeadKey(InventoryQ), InventoryQ)} +
    {(DeadKey(ShippingQ), ShippingQ)} + {(DeadKey(NotificationQ), NotificationQ)}
  }

  lemma DeclaredApart()
    ensures DeadLettersApart(AllDeadKeys(), AllDeadBindings())
  {
    forall q ensures q in AllDeadKeys() && AllDeadKeys()[q] == DeadKey(q) && (DeadKey(q), q) in AllDeadBindings() {
      match q
      case OrderQ =>
      case InventoryQ =>
      case ShippingQ =>
      case NotificationQ =>
    }
    forall q, d ensures (AllDeadKeys()[q], d) in AllDeadBindings() <==> d == q {
      DeadKeysDistinct(q, d);
    }
  }

  function AllBindings(): set<(EventType, Queue)> {
    (set t | t in Registered(OrderQ) :: (t, OrderQ)) + (set t | t in Registered(InventoryQ) :: (t, InventoryQ)) +
    (set t | t in Registered(ShippingQ) :: (t, ShippingQ)) + (set t | t in Registered(NotificationQ) :: (t, NotificationQ))
  }

  lemma BoundAsRegistered(t: EventType, q: Queue)
    ensures (t, q) in AllBindings() <==> q in Bound(t)
  {
    TopologyMatches(q, t);
    match q
    case OrderQ =>
    case InventoryQ =>
    case ShippingQ =>
    case NotificationQ =>
  }

  /**
   * The broker: which event types reach which queue, under which key a queue's rejected messages are
   * dead-lettered, which dead-letter queue (named by its main queue) each such key reaches, and the
   * mesh it drives one protocol step at a time.
   */
  class Broker {
    var connected: bool
    var bindings: set<(EventType, Queue)>
    var deadKeys: map<Queue, string>
    var deadBindings: set<(string, Queue)>
    var mesh: Mesh

    constructor (connected: bool)
      ensures this.connected == connected && bindings == {} && deadKeys == map[] && deadBindings == {}
      ensures mesh == QUIET
    {
      this.connected, bindings, deadKeys, deadBindings, mesh := connected, {}, map[], {}, QUIET;
    }

    method Bind(t: EventType, q: Queue)
      modifies this`bindings
      ensures bindings == old(bindings) + {(t, q)}
    {
      bindings := bindings + {(t, q)};
    }

    /** Declares a queue with its dead-letter arguments, and its dead-letter queue bound under the same key. */
    method Declare(q: Queue)
      modifies this`deadKeys, this`deadBindings
      ensures deadKeys == old(deadKeys)[q := DeadKey(q)]
      ensures deadBindings == old(deadBindings) + {(DeadKey(q), q)}
    {
      deadBindings := deadBindings + {(Name(q) + ".dead", q)};
      deadKeys := deadKeys[q := Name(q) + ".dead"];
    }

    /** Performs one step on a slot and returns where the slot is now; a slot that is gone is returned as it was. */
    method Perform(a: Action) returns (y: Slot)
      requires Enabled(mesh, a) && OnSlot(a)
      modifies this`mesh
      ensures Ran(old(mesh), [a], mesh) && mesh == Step(old(mesh), a)
      ensures NextPlace(old(mesh), a).Some? ==>
                y == Slot(a.x.copy, NextPlace(old(mesh), a).value) && y in mesh.slots
    {
      RanOne(mesh, a);
      Moves(mesh, a);
      y := if NextPlace(mesh, a).Some? then Slot(a.x.copy, NextPlace(mesh, a).value) else a.x;
      mesh := Step(mesh, a);
    }
  }

  datatype Moment = BeforeCommit | BeforePublish | BeforeAck

  /**
   * Where, if anywhere, an exception is raised while a message is handled, and after how many steps
   * of the recovery the recovery itself fails, leaving the message unacknowledged.
   */
  datatype Trouble = Smooth | Raised(at: Moment, recovered: nat)

  /** Commit, and publish if the handler has something to announce. */
  function Success(c: Copy, out: Option<Event>, env: Env): seq<Action> {
    [Commit(Slot(c, Taken), env)] + if out.Some? then [Publish(Slot(c, Committed(out)))] else []
  }

  function Settled(c: Copy, out: Option<Event>): Slot {
    Slot(c, if out.Some? then Announced else Committed(None))
  }

  /** The protocol steps of one handling. */
  function Script(c: Copy, out: Option<Event>, env: Env, trouble: Trouble): seq<Action> {
    match trouble
    case Smooth => Success(c, out, env) + [Ack(Settled(c, out))]
    case Raised(BeforeCommit, k) => Recovery(c, Slot(c, Taken), k)
    case Raised(BeforePublish, k) => [Commit(Slot(c, Taken), env)] + Recovery(c, Slot(c, Committed(out)), k)
    case Raised(BeforeAck, k) => Success(c, out, env) + Recovery(c, Settled(c, out), k)
  }

  /** The exception is caught, and `k` more steps of the recovery succeed. */
  function Recovery(c: Copy, at: Slot, k: nat): seq<Action> {
    [Fail(at)] +
    if k == 0 then []
    else if c.retry + 1 >= MAX_RETRIES then [Reject(Slot(c, Failed))]
    else Retrying(c, k)
  }

  /** Republish first, ack only then. */
  function Retrying(c: Copy, k: nat): seq<Action> {
    [Republish(Slot(c, Failed))] + if k <= 1 then [] else [AckRetried(Slot(c, Requeued))]
  }

  /** What is left of a copy after its failure and `k` steps of the recovery. */
  function Ending(c: Copy, k: nat): multiset<Slot> {
    if k == 0 then multiset{Slot(c, Failed)}
    else if c.retry + 1 >= MAX_RETRIES then multiset{Slot(c, Dead)}
    else FanOut(c.id, c.event, c.retry + 1, c.slept + Backoff(c.retry + 1))
         + if k == 1 then multiset{Slot(c, Requeued)} else multiset{}
  }

  /** The copies of an announcement. */
  function News(m: Mesh, out: Option<Event>): multiset<Slot> {
    if out.Some? then FanOut(|m.published|, out.value, 0, 0) else multiset{}
  }

  /** One slot gives way to others; nothing else changes. */
  predicate Became(m0: Mesh, x: Slot, m1: Mesh, ending: multiset<Slot>) {
    m1 == m0.(slots := m0.slots - multiset{x} + ending)
  }

  lemma BecameTwice(m0: Mesh, x: Slot, m1: Mesh, y: Slot, m2: Mesh, ending: multiset<Slot>)
    requires Became(m0, x, m1, multiset{y}) && Became(m1, y, m2, ending)
    ensures Became(m0, x, m2, ending)
  {
    assert m1.slots - multiset{y} == m0.slots - multiset{x};
  }

  lemma RequeuedGone(m0: Mesh, c: Copy, m1: Mesh, m2: Mesh, copies: multiset<Slot>)
    requires Became(m0, Slot(c, Failed), m1, copies + multiset{Slot(c, Requeued)})
    requires m2 == m1.(slots := m1.slots - multiset{Slot(c, Requeued)})
    ensures Became(m0, Slot(c, Failed), m2, copies)
  {
    assert m2.slots == m0.slots - multiset{Slot(c, Failed)} + copies;
  }

  lemma RepublishSlots(m0: Mesh, c: Copy)
    requires Enabled(m0, Republish(Slot(c, Failed)))
    ensures Became(m0, Slot(c, Failed), Step(m0, Republish(Slot(c, Failed))), Retries(c) + multiset{Slot(c, Requeued)})
  {
    assert Step(m0, Republish(Slot(c, Failed))).slots ==
           m0.slots - multiset{Slot(c, Failed)} + (Retries(c) + multiset{Slot(c, Requeued)});
  }

  /** The handler has committed and announced, and its copy is now `x`. */
  predicate Committing(m0: Mesh, c: Copy, r: Effect, m1: Mesh, x: Slot) {
    && m1.world == r.world && m1.tasks == m0.tasks && m1.done == m0.done
    && m1.published == m0.published + (if r.out.Some? then [r.out.value] else [])
    && m1.slots == m0.slots - multiset{Slot(c, Taken)} + News(m0, r.out) + multiset{x}
  }

  lemma CommitSlots(m0: Mesh, c: Copy, env: Env)
    requires Enabled(m0, Commit(Slot(c, Taken), env))
    ensures var r := Handle(c.queue, c.event, m0.world, env);
            var m1 := Step(m0, Commit(Slot(c, Taken), env));
            && Committing(m0, c, Effect(r.world, None), m1, Slot(c, Committed(r.out)))
  {
  }

  lemma PublishSlots(m0: Mesh, c: Copy, r: Effect, m1: Mesh)
    requires r.out.Some? && Committing(m0, c, Effect(r.world, None), m1, Slot(c, Committed(r.out)))
    ensures Slot(c, Committed(r.out)) in m1.slots
    ensures Committing(m0, c, r, Step(m1, Publish(Slot(c, Committed(r.out)))), Slot(c, Announced))
  {
    var x := Slot(c, Committed(r.out));
    assert m1.slots - multiset{x} == m0.slots - multiset{Slot(c, Taken)};
    assert m1.published == m0.published;
  }

  lemma CommittingThen(m0: Mesh, c: Copy, r: Effect, m1: Mesh, x: Slot, m2: Mesh, ending: multiset<Slot>)
    requires Committing(m0, c, r, m1, x) && m2.slots == m1.slots - multiset{x} + ending
    ensures m2.slots == m0.slots - multiset{Slot(c, Taken)} + News(m0, r.out) + ending
  {
    assert m1.slots - multiset{x} == m0.slots - multiset{Slot(c, Taken)} + News(m0, r.out);
  }

  predicate Said(trouble: Trouble, out: Option<Event>) {
    out.Some? && (trouble.Raised? ==> trouble.at.BeforeAck?)
  }

  /** Where one handling of `c` leaves the mesh. */
  predicate Handled(m0: Mesh, m1: Mesh, c: Copy, r: Effect, trouble: Trouble) {
    && m1.tasks == m0.tasks
    && m1.done == m0.done + (if trouble.Smooth? then {(c.queue, c.id)} else {})
    && m1.world == (if trouble.Raised? && trouble.at.BeforeCommit? then m0.world else r.world)
    && m1.published == m0.published + (if Said(trouble, r.out) then [r.out.value] else [])
    && m1.slots ==
       m0.slots - multiset{Slot(c, Taken)}
       + (if Said(trouble, r.out) then News(m0, r.out) else multiset{})
       + if trouble.Smooth? then multiset{} else Ending(c, trouble.recovered)
  }

  lemma CommitThenEnding(m0: Mesh, c: Copy, r: Effect, m1: Mesh, m2: Mesh, k: nat)
    requires Committing(m0, c, Effect(r.world, None), m1, Slot(c, Committed(r.out)))
    requires Became(m1, Slot(c, Committed(r.out)), m2, Ending(c, k))
    ensures Handled(m0, m2, c, r, Raised(BeforePublish, k))
  {
    CommittingThen(m0, c, Effect(r.world, None), m1, Slot(c, Committed(r.out)), m2, Ending(c, k));
  }

  lemma SuccessThenEnding(m0: Mesh, c: Copy, r: Effect, m1: Mesh, x: Slot, m2: Mesh, k: nat)
    requires Committing(m0, c, r, m1, x) && Became(m1, x, m2, Ending(c, k))
    ensures Handled(m0, m2, c, r, Raised(BeforeAck, k))
  {
    CommittingThen(m0, c, r, m1, x, m2, Ending(c, k));
  }

  lemma EndingRetries(c: Copy, k: nat, q: Queue)
    requires k >= 1 && c.retry + 1 < MAX_RETRIES && q in Bound(TypeOf(c.event))
    ensures Slot(Copy(q, c.id, c.event, c.retry + 1, c.slept + Backoff(c.retry + 1)), Ready) in Ending(c, k)
  {
    RetriesAre(c, Slot(NextTry(c, q), Ready));
    assert Slot(NextTry(c, q), Ready) in Retries(c);
  }

  lemma NewsMeans(m0: Mesh, out: Option<Event>, said: bool)
    requires said ==> out.Some?
    ensures (if said then News(m0, out) else multiset{}) ==
            if said then FanOut(|m0.published|, out.value, 0, 0) else multiset{}
  {
  }

  lemma EndingMeans(c: Copy, trouble: Trouble)
    ensures (if trouble.Smooth? then multiset{} else Ending(c, trouble.recovered)) ==
            if trouble.Smooth? then multiset{}
            else if trouble.recovered == 0 then multiset{Slot(c, Failed)}
            else if c.retry + 1 >= MAX_RETRIES then multiset{Slot(c, Dead)}
            else FanOut(c.id, c.event, c.retry + 1, c.slept + Backoff(c.retry + 1))
                 + if trouble.recovered == 1 then multiset{Slot(c, Requeued)} else multiset{}
  {
  }

  lemma HandledSlots(m0: Mesh, m1: Mesh, c: Copy, r: Effect, trouble: Trouble)
    requires Handled(m0, m1, c, r, trouble)
    ensures var said := r.out.Some? && (trouble.Raised? ==> trouble.at.BeforeAck?);
            && m1.published == m0.published + (if said then [r.out.value] else [])
            && m1.slots ==
               m0.slots - multiset{Slot(c, Taken)}
               + (if said then FanOut(|m0.published|, r.out.value, 0, 0) else multiset{})
               + if trouble.Smooth? then multiset{}
                 else if trouble.recovered == 0 then multiset{Slot(c, Failed)}
                 else if c.retry + 1 >= MAX_RETRIES then multiset{Slot(c, Dead)}
                 else FanOut(c.id, c.event, c.retry + 1, c.slept + Backoff(c.retry + 1))
                      + if trouble.recovered == 1 then multiset{Slot(c, Requeued)} else multiset{}
  {
    NewsMeans(m0, r.out, Said(trouble, r.out));
    EndingMeans(c, trouble);
  }

  lemma HandledRetries(m0: Mesh, m1: Mesh, c: Copy, r: Effect, trouble: Trouble)
    requires Handled(m0, m1, c, r, trouble)
    ensures trouble.Raised? && trouble.recovered >= 1 && c.retry + 1 < MAX_RETRIES ==>
              forall q | q in Bound(TypeOf(c.event)) ::
                Slot(Copy(q, c.id, c.event, c.retry + 1, c.slept + Backoff(c.retry + 1)), Ready) in m1.slots
  {
    forall q | trouble.Raised? && trouble.recovered >= 1 && c.retry + 1 < MAX_RETRIES && q in Bound(TypeOf(c.event))
      ensures Slot(Copy(q, c.id, c.event, c.retry + 1, c.slept + Backoff(c.retry + 1)), Ready) in m1.slots
    {
      EndingRetries(c, trouble.recovered, q);
    }
  }

  class Consumer {
    const broker: Broker
    const queue: Queue
    var handlers: set<EventType>

    constructor (broker: Broker, queue: Queue)
      ensures this.broker == broker && this.queue == queue && handlers == {}
    {
      this.broker, this.queue, handlers := broker, queue, {};
    }

    method On(t: EventType)
      modifies this`handlers
      ensures handlers == old(handlers) + {t}
    {
      handlers := handlers + {t};
    }

    /**
     * Declares the queue and its dead-letter queue and binds it once per registered type; refuses when
     * the broker is not connected.
     */
    method Start() returns (ok: bool)
      modifies broker`bindings, broker`deadKeys, broker`deadBindings
      ensures ok == broker.connected
      ensures broker.bindings == old(broker.bindings) + if ok then (set t | t in handlers :: (t, queue)) else {}
      ensures broker.deadKeys == if ok then old(broker.deadKeys)[queue := DeadKey(queue)] else old(broker.deadKeys)
      ensures broker.deadBindings == old(broker.deadBindings) + if ok then {(DeadKey(queue), queue)} else {}
    {
      if !broker.connected {
        return false;
      }
      broker.Declare(queue);
      BindAll();
      ok := true;
    }

    method BindAll()
      modifies broker`bindings
      ensures broker.bindings == old(broker.bindings) + set t | t in handlers :: (t, queue)
    {
      var todo := handlers;
      while exists t :: t in todo
        invariant todo <= handlers
        invariant broker.bindings == old(broker.bindings) + set t | t in handlers && t !in todo :: (t, queue)
        decreases |todo|
      {
        var t :| t in todo;
        broker.Bind(t, queue);
        todo := todo - {t};
      }
    }

    /** Another attempt is left: every bound queue gets the next one before this copy is acked. */
    method Retry(c: Copy, k: nat)
      requires Enabled(broker.mesh, Republish(Slot(c, Failed))) && k >= 1
      modifies broker`mesh
      ensures Ran(old(broker.mesh), Retrying(c, k), broker.mesh)
      ensures Became(old(broker.mesh), Slot(c, Failed), broker.mesh, Ending(c, k))
    {
      ghost var m0 := broker.mesh;
      RepublishSlots(m0, c);
      var z := broker.Perform(Republish(Slot(c, Failed)));
      if k > 1 {
        ghost var m1 := broker.mesh;
        var _ := broker.Perform(AckRetried(z));
        RanThen(m0, [Republish(Slot(c, Failed))], m1, [AckRetried(z)], broker.mesh);
        RequeuedGone(m0, c, m1, broker.mesh, Retries(c));
      } else {
        assert Retrying(c, k) == [Republish(Slot(c, Failed))];
      }
    }

    /**
     * The exception path: dead-letter the last attempt, otherwise republish first and ack only then. The
     * failed copy gives way to its dead letter, or to one more try in every bound queue.
     */
    method Recover(x: Slot, k: nat)
      requires Enabled(broker.mesh, Fail(x))
      modifies broker`mesh
      ensures Ran(old(broker.mesh), Recovery(x.copy, x, k), broker.mesh)
      ensures Became(old(broker.mesh), x, broker.mesh, Ending(x.copy, k))
    {
      ghost var m0 := broker.mesh;
      var y := broker.Perform(Fail(x));
      ghost var m1 := broker.mesh;
      assert Became(m0, x, m1, multiset{y});
      if k == 0 {
        assert Recovery(x.copy, x, k) == [Fail(x)];
      } else if x.copy.retry + 1 >= MAX_RETRIES {
        var _ := broker.Perform(Reject(y));
        RanThen(m0, [Fail(x)], m1, [Reject(y)], broker.mesh);
        BecameTwice(m0, x, m1, y, broker.mesh, Ending(x.copy, k));
      } else {
        Retry(x.copy, k);
        RanThen(m0, [Fail(x)], m1, Retrying(x.copy, k), broker.mesh);
        BecameTwice(m0, x, m1, y, broker.mesh, Ending(x.copy, k));
      }
    }

    /** Looks up the handler, commits its transaction and publishes what it announces. */
    method Succeed(c: Copy, env: Env) returns (x: Slot)
      requires handlers == Registered(queue) && c.queue == queue
      requires Enabled(broker.mesh, Commit(Slot(c, Taken), env))
      modifies broker`mesh
      ensures var r := Handle(queue, c.event, old(broker.mesh.world), env);
              && Ran(old(broker.mesh), Success(c, r.out, env), broker.mesh)
              && x == Settled(c, r.out) && x in broker.mesh.slots
              && Committing(old(broker.mesh), c, r, broker.mesh, x)
    {
      ghost var m0 := broker.mesh;
      var out := if TypeOf(c.event) in handlers then Handle(queue, c.event, broker.mesh.world, env).out else None;
      assert out == Handle(queue, c.event, m0.world, env).out by {
        if TypeOf(c.event) !in handlers {
          UnregisteredIsNoOp(queue, c.event, m0.world, env);
        }
      }
      CommitSlots(m0, c, env);
      x := broker.Perform(Commit(Slot(c, Taken), env));
      if out.Some? {
        ghost var m1, y := broker.mesh, x;
        PublishSlots(m0, c, Handle(queue, c.event, m0.world, env), m1);
        x := broker.Perform(Publish(x));
        RanThen(m0, [Commit(Slot(c, Taken), env)], m1, [Publish(y)], broker.mesh);
      } else {
        assert Success(c, out, env) == [Commit(Slot(c, Taken), env)];
      }
    }

    method HandleSmoothly(c: Copy, env: Env)
      requires handlers == Registered(queue) && c.queue == queue
      requires Enabled(broker.mesh, Commit(Slot(c, Taken), env))
      modifies broker`mesh
      ensures var m0, m1 := old(broker.mesh), broker.mesh;
              var r := Handle(queue, c.event, m0.world, env);
              && Ran(m0, Script(c, r.out, env, Smooth), m1)
              && Handled(m0, m1, c, r, Smooth)
    {
      ghost var m0 := broker.mesh;
      ghost var r := Handle(queue, c.event, broker.mesh.world, env);
      var x := Succeed(c, env);
      ghost var m1 := broker.mesh;
      var _ := broker.Perform(Ack(x));
      RanThen(m0, Success(c, r.out, env), m1, [Ack(x)], broker.mesh);
      CommittingThen(m0, c, r, m1, x, broker.mesh, multiset{});
    }

    /** The transaction commits, then nothing is announced. */
    method HandleUnannounced(c: Copy, env: Env, k: nat)
      requires handlers == Registered(queue) && c.queue == queue
      requires Enabled(broker.mesh, Commit(Slot(c, Taken), env))
      modifies broker`mesh
      ensures var m0, m1 := old(broker.mesh), broker.mesh;
              var r := Handle(queue, c.event, m0.world, env);
              && Ran(m0, Script(c, r.out, env, Raised(BeforePublish, k)), m1)
              && Handled(m0, m1, c, r, Raised(BeforePublish, k))
    {
      ghost var m0 := broker.mesh;
      ghost var r := Handle(queue, c.event, broker.mesh.world, env);
      CommitSlots(m0, c, env);
      var x := broker.Perform(Commit(Slot(c, Taken), env));
      ghost var m1 := broker.mesh;
      Recover(x, k);
      RanThen(m0, [Commit(Slot(c, Taken), env)], m1, Recovery(c, x, k), broker.mesh);
      CommitThenEnding(m0, c, r, m1, broker.mesh, k);
    }

    /** The announcement is out, but the message is not acknowledged. */
    method HandleUnacknowledged(c: Copy, env: Env, k: nat)
      requires handlers == Registered(queue) && c.queue == queue
      requires Enabled(broker.mesh, Commit(Slot(c, Taken), env))
      modifies broker`mesh
      ensures var m0, m1 := old(broker.mesh), broker.mesh;
              var r := Handle(queue, c.event, m0.world, env);
              && Ran(m0, Script(c, r.out, env, Raised(BeforeAck, k)), m1)
              && Handled(m0, m1, c, r, Raised(BeforeAck, k))
    {
      ghost var m0 := broker.mesh;
      ghost var r := Handle(queue, c.event, broker.mesh.world, env);
      var x := Succeed(c, env);
      ghost var m1 := broker.mesh;
      Recover(x, k);
      RanThen(m0, Success(c, r.out, env), m1, Recovery(c, x, k), broker.mesh);
      SuccessThenEnding(m0, c, r, m1, x, broker.mesh, k);
    }

    method Dispatch(c: Copy, env: Env, trouble: Trouble)
      requires handlers == Registered(queue) && c.queue == queue
      requires Enabled(broker.mesh, Commit(Slot(c, Taken), env))
      modifies broker`mesh
      ensures var r := Handle(queue, c.event, old(broker.mesh.world), env);
              && Ran(old(broker.mesh), Script(c, r.out, env, trouble), broker.mesh)
              && Handled(old(broker.mesh), broker.mesh, c, r, trouble)
    {
      match trouble {
        case Smooth => HandleSmoothly(c, env);
        case Raised(BeforeCommit, k) => Recover(Slot(c, Taken), k);
        case Raised(BeforePublish, k) => HandleUnannounced(c, env, k);
        case Raised(BeforeAck, k) => HandleUnacknowledged(c, env, k);
      }
    }

    /**
     * One delivered message, handled to the end: always one of the protocol's scripts, nothing else. What
     * is committed, said and acknowledged depends on where the exception strikes; the copy is gone, dead,
     * or followed by one more try in every bound queue, unless the recovery itself was cut short.
     */
    method HandleMessage(c: Copy, env: Env, trouble: Trouble)
      requires handlers == Registered(queue) && c.queue == queue
      requires Enabled(broker.mesh, Commit(Slot(c, Taken), env))
      modifies broker`mesh
      ensures Ran(old(broker.mesh), Script(c, Handle(queue, c.event, old(broker.mesh.world), env).out, env, trouble),
                  broker.mesh)
      ensures var m0, m1 := old(broker.mesh), broker.mesh;
              && m1.tasks == m0.tasks
              && m1.done == m0.done + (if trouble.Smooth? then {(queue, c.id)} else {})
              && m1.world == (if trouble.Raised? && trouble.at.BeforeCommit? then m0.world
                              else Handle(queue, c.event, m0.world, env).world)
      ensures var m0, m1 := old(broker.mesh), broker.mesh;
              var out := Handle(queue, c.event, m0.world, env).out;
              var said := out.Some? && (trouble.Raised? ==> trouble.at.BeforeAck?);
              && m1.published == m0.published + (if said then [out.value] else [])
              && m1.slots ==
                 m0.slots - multiset{Slot(c, Taken)}
                 + (if said then FanOut(|m0.published|, out.value, 0, 0) else multiset{})
                 + if trouble.Smooth? then multiset{}
                   else if trouble.recovered == 0 then multiset{Slot(c, Failed)}
                   else if c.retry + 1 >= MAX_RETRIES then multiset{Slot(c, Dead)}
                   else FanOut(c.id, c.event, c.retry + 1, c.slept + Backoff(c.retry + 1))
                        + if trouble.recovered == 1 then multiset{Slot(c, Requeued)} else multiset{}
      ensures trouble.Raised? && trouble.recovered >= 1 && c.retry + 1 < MAX_RETRIES ==>
                forall q | q in Bound(TypeOf(c.event)) ::
                  Slot(Copy(q, c.id, c.event, c.retry + 1, c.slept + Backoff(c.retry + 1)), Ready) in broker.mesh.slots
    {
      ghost var m0, r := broker.mesh, Handle(queue, c.event, broker.mesh.world, env);
      Dispatch(c, env, trouble);
      HandledSlots(m0, broker.mesh, c, r, trouble);
      HandledRetries(m0, broker.mesh, c, r, trouble);
    }
  }

  /** A service's `build_consumer` and start-up. */
  method StartService(broker: Broker, queue: Queue) returns (ok: bool)
    modifies broker`bindings, broker`deadKeys, broker`deadBindings
    ensures ok == broker.connected
    ensures broker.bindings == old(broker.bindings) + if ok then (set t | t in Registered(queue) :: (t, queue)) else {}
    ensures broker.deadKeys == if ok then old(broker.deadKeys)[queue := DeadKey(queue)] else old(broker.deadKeys)
    ensures broker.deadBindings == old(broker.deadBindings) + if ok then {(DeadKey(queue), queue)} else {}
  {
    var consumer := new Consumer(broker, queue);
    match queue {
      case OrderQ =>
        consumer.On(STOCK_RESERVED);
        consumer.On(STOCK_UNAVAILABLE);
        consumer.On(SHIPMENT_CREATED);
      case InventoryQ =>
        consumer.On(ORDER_CREATED);
        consumer.On(ORDER_CANCELLED);
      case ShippingQ =>
        consumer.On(STOCK_RESERVED);
      case NotificationQ =>
        consumer.On(ORDER_CREATED);
        consumer.On(STOCK_RESERVED);
        consumer.On(SHIPMENT_CREATED);
        consumer.On(SHIPMENT_DELIVERED);
    }
    assert consumer.handlers == Registered(queue);
    ok := consumer.Start();
  }

  /**
   * Once all four services have started, the exchange is bound exactly as modelled, and what a queue
   * rejects reaches its own dead-letter queue and no other.
   */
  method StartAll(broker: Broker) returns (ok: bool)
    requires broker.bindings == {} && broker.deadKeys == map[] && broker.deadBindings == {}
    modifies broker`bindings, broker`deadKeys, broker`deadBindings
    ensures ok == broker.connected
    ensures forall t, q :: (t, q) in broker.bindings <==> ok && q in Bound(t)
    ensures ok ==> DeadLettersApart(broker.deadKeys, broker.deadBindings)
  {
    var a := StartService(broker, OrderQ);
    var b := StartService(broker, InventoryQ);
    var c := StartService(broker, ShippingQ);
    var d := StartService(broker, NotificationQ);
    ok := a && b && c && d;
    if ok {
      assert broker.bindings == AllBindings();
      assert broker.deadKeys == AllDeadKeys() && broker.deadBindings == AllDeadBindings();
      DeclaredApart();
      forall t, q ensures (t, q) in broker.bindings <==> q in Bound(t) {
        BoundAsRegistered(t, q);
      }
    }
  }

}
