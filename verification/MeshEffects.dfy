/** What a completed handler leaves behind in at-least-once runs: its announcement, and its database row. */
module MeshEffects {
  import opened Domain
  import opened Saga
  import opened SagaInvariant
  import opened Mesh
  import opened MeshSafety

  /** The handlers that always announce something. */
  predicate MustAnswer(q: Queue, e: Event) {
    (q == InventoryQ && e.OrderCreated?) || (q == ShippingQ && e.StockReserved?)
  }

  predicate Answers(q: Queue, e: Event, r: Event) {
    match (q, e)
    case (InventoryQ, OrderCreated(o, _, _, items)) => r == StockReserved(o, items) || r == StockUnavailable(o)
    case (ShippingQ, StockReserved(o, _)) => r.ShipmentCreated? && r.order == o
    case _ => false
  }

  ghost predicate Answered(published: seq<Event>, q: Queue, e: Event) {
    exists r :: r in published && Answers(q, e, r)
  }

  /** Past its commit, a copy that must be answered carries its answer or has published it. */
  ghost predicate OnItsWay(published: seq<Event>, x: Slot) {
    MustAnswer(x.copy.queue, x.copy.event) ==>
      match x.place
      case Committed(Some(r)) => Answers(x.copy.queue, x.copy.event, r)
      case Committed(None) => false
      case Announced => Answered(published, x.copy.queue, x.copy.event)
      case _ => true
  }

  ghost predicate DoneIsAnswered(s: Mesh, q: Queue, id: nat) {
    id < |s.published| && (MustAnswer(q, s.published[id]) ==> Answered(s.published, q, s.published[id]))
  }

  ghost predicate Effective(s: Mesh) {
    && (forall x | x in s.slots :: OnItsWay(s.published, x))
    && (forall q, id | (q, id) in s.done :: DoneIsAnswered(s, q, id))
  }

  lemma HandlerAnswers(q: Queue, e: Event, w: World, env: Env)
    requires MustAnswer(q, e)
    ensures Handle(q, e, w, env).out.Some? && Answers(q, e, Handle(q, e, w, env).out.value)
  {
  }

  lemma AnsweredLater(published: seq<Event>, published': seq<Event>, q: Queue, e: Event)
    requires published <= published' && Answered(published, q, e)
    ensures Answered(published', q, e)
  {
    var r :| r in published && Answers(q, e, r);
    assert r in published';
  }

  lemma OnItsWayLater(published: seq<Event>, published': seq<Event>, x: Slot)
    requires published <= published' && OnItsWay(published, x)
    ensures OnItsWay(published', x)
  {
    if MustAnswer(x.copy.queue, x.copy.event) && x.place.Announced? {
      AnsweredLater(published, published', x.copy.queue, x.copy.event);
    }
  }

  /** The slot a step has just moved. */
  lemma MovedOnItsWay(s: Mesh, a: Action, y: Slot)
    requires Enabled(s, a) && OnSlot(a) && OnItsWay(s.published, a.x)
    requires NextPlace(s, a) == Some(y.place) && y.copy == a.x.copy
    ensures OnItsWay(Step(s, a).published, y)
  {
    var q, e := y.copy.queue, y.copy.event;
    if MustAnswer(q, e) {
      if a.Commit? {
        HandlerAnswers(q, e, s.world, a.env);
      } else if a.Publish? {
        assert Step(s, a).published == s.published + [a.x.place.out.value];
        assert a.x.place.out.value in Step(s, a).published;
      }
    }
  }

  lemma StepSlots(s: Mesh, a: Action, y: Slot)
    requires Effective(s) && Enabled(s, a) && y in Step(s, a).slots
    ensures OnItsWay(Step(s, a).published, y)
  {
    HistoryGrows(s, a);
    if y in s.slots {
      OnItsWayLater(s.published, Step(s, a).published, y);
    } else if !y.place.Ready? {
      Origin(s, a, y);
      SlotBecame(s, a, y);
      MovedOnItsWay(s, a, y);
    }
  }

  lemma OnlyAckCompletes(s: Mesh, a: Action, q: Queue, id: nat)
    requires Enabled(s, a) && (q, id) in Step(s, a).done && (q, id) !in s.done
    ensures a.Ack? && a.x.copy.queue == q && a.x.copy.id == id && a.x in s.slots
    ensures a.x.place in {Announced, Committed(None)} && Step(s, a).published == s.published
  {
  }

  lemma StepDone(s: Mesh, a: Action, q: Queue, id: nat)
    requires Effective(s) && Faithful(s) && Enabled(s, a) && (q, id) in Step(s, a).done
    ensures DoneIsAnswered(Step(s, a), q, id)
  {
    HistoryGrows(s, a);
    if (q, id) in s.done {
      assert DoneIsAnswered(s, q, id);
      if MustAnswer(q, s.published[id]) {
        AnsweredLater(s.published, Step(s, a).published, q, s.published[id]);
      }
    } else {
      OnlyAckCompletes(s, a, q, id);
      assert FaithfulCopy(s, a.x.copy) && OnItsWay(s.published, a.x);
    }
  }

  lemma StepEffective(s: Mesh, a: Action)
    requires Effective(s) && Faithful(s) && Enabled(s, a)
    ensures Effective(Step(s, a))
  {
    var s1 := Step(s, a);
    forall y | y in s1.slots ensures OnItsWay(s1.published, y) {
      StepSlots(s, a, y);
    }
    forall q, id | (q, id) in s1.done ensures DoneIsAnswered(s1, q, id) {
      StepDone(s, a, q, id);
    }
  }

  lemma {:induction false} RunEffective(acts: seq<Action>)
    ensures Effective(Exec(QUIET, acts))
  {
    if acts != [] {
      var n := |acts| - 1;
      var s := Exec(QUIET, acts[..n]);
      RunEffective(acts[..n]);
      RunFaithful(acts[..n]);
      if Enabled(s, acts[n]) {
        StepEffective(s, acts[n]);
      }
    }
  }

  // ----- main results -----

  /** A claim inventory has acknowledged was answered, whatever crashed or failed on the way. */
  lemma CompletedClaimIsAnswered(acts: seq<Action>, id: nat)
    ensures var s := Exec(QUIET, acts);
            (InventoryQ, id) in s.done && id < |s.published| && s.published[id].OrderCreated? ==>
              var e := s.published[id];
              StockReserved(e.order, e.items) in s.published || StockUnavailable(e.order) in s.published
  {
    RunEffective(acts);
    var s := Exec(QUIET, acts);
    if (InventoryQ, id) in s.done {
      assert DoneIsAnswered(s, InventoryQ, id);
    }
  }

  /** A reservation shipping has acknowledged has its shipment, and the shipment was announced. */
  lemma CompletedReservationIsShipped(acts: seq<Action>, id: nat)
    ensures var s := Exec(QUIET, acts);
            (ShippingQ, id) in s.done && id < |s.published| && s.published[id].StockReserved? ==>
              var o := s.published[id].order;
              HasShipment(s.world.shipments, o) && Said(s.published, SHIPMENT_CREATED, o)
  {
    RunEffective(acts);
    RunInv(acts);
    var s := Exec(QUIET, acts);
    if (ShippingQ, id) in s.done && id < |s.published| && s.published[id].StockReserved? {
      assert DoneIsAnswered(s, ShippingQ, id);
      var r :| r in s.published && Answers(ShippingQ, s.published[id], r);
      assert Voiced(s, r);
    }
  }

  /** Every announced order has its answer, and every reserved one its announced shipment. */
  ghost predicate AllFollowedUp(s: Mesh) {
    forall e | e in s.published ::
      && (e.OrderCreated? ==> StockReserved(e.order, e.items) in s.published || StockUnavailable(e.order) in s.published)
      && (e.StockReserved? ==> HasShipment(s.world.shipments, e.order) && Said(s.published, SHIPMENT_CREATED, e.order))
  }

  lemma NoSlotsMeansDone(acts: seq<Action>, id: nat, q: Queue)
    requires Exec(QUIET, acts).slots == multiset{} && id < |Exec(QUIET, acts).published|
    requires q in Bound(TypeOf(Exec(QUIET, acts).published[id]))
    ensures (q, id) in Exec(QUIET, acts).done
  {
    NoEventLost(acts);
  }

  /** However an at-least-once run went: once no message is left, everything announced was followed up. */
  lemma EmptyMeshIsFollowedUp(acts: seq<Action>)
    requires Exec(QUIET, acts).slots == multiset{}
    ensures AllFollowedUp(Exec(QUIET, acts))
  {
    var s := Exec(QUIET, acts);
    forall e | e in s.published
      ensures e.OrderCreated? ==>
                StockReserved(e.order, e.items) in s.published || StockUnavailable(e.order) in s.published
      ensures e.StockReserved? ==>
                HasShipment(s.world.shipments, e.order) && Said(s.published, SHIPMENT_CREATED, e.order)
    {
      var id :| 0 <= id < |s.published| && s.published[id] == e;
      if e.OrderCreated? {
        NoSlotsMeansDone(acts, id, InventoryQ);
        CompletedClaimIsAnswered(acts, id);
      } else if e.StockReserved? {
        NoSlotsMeansDone(acts, id, ShippingQ);
        CompletedReservationIsShipped(acts, id);
      }
    }
  }

  // ----- the status of a shipment -----

  /** Whether this step sets the status of shipment row `i`. */
  predicate Marks(s: Mesh, a: Action, i: nat) {
    Enabled(s, a) && a.MarkShipment? && a.index == i
  }

  /** The status last set on row `i` in this run; a row nobody touched is as it was made. */
  function LastMark(acts: seq<Action>, i: nat): ShipmentStatus {
    if acts == [] then ShipmentMade
    else
      var init, a := acts[..|acts| - 1], acts[|acts| - 1];
      if Marks(Exec(QUIET, init), a, i) then a.status else LastMark(init, i)
  }

  lemma HandlerMakesFresh(q: Queue, e: Event, w: World, env: Env, i: nat)
    requires i < |Handle(q, e, w, env).world.shipments|
    ensures Handle(q, e, w, env).world.shipments[i].status ==
            if i < |w.shipments| then w.shipments[i].status else ShipmentMade
  {
  }

  lemma StepStatus(s: Mesh, a: Action, i: nat)
    requires Enabled(s, a) && i < |Step(s, a).world.shipments|
    ensures Step(s, a).world.shipments[i].status ==
            if Marks(s, a, i) then a.status
            else if i < |s.world.shipments| then s.world.shipments[i].status
            else ShipmentMade
  {
    if a.Commit? {
      HandlerMakesFresh(a.x.copy.queue, a.x.copy.event, s.world, a.env, i);
    } else if !a.MarkShipment? {
      ShipmentsUntouched(s, a);
    }
  }

  /** In every at-least-once run a shipment has the status last set on it, and the one it was made with before that. */
  lemma {:induction false} StatusIsLastMark(acts: seq<Action>, i: nat)
    ensures var rows := Exec(QUIET, acts).world.shipments;
            LastMark(acts, i) == if i < |rows| then rows[i].status else ShipmentMade
  {
    if acts != [] {
      var init, a := acts[..|acts| - 1], acts[|acts| - 1];
      var s := Exec(QUIET, init);
      StatusIsLastMark(init, i);
      StepKeepsRows(s, a);
      if Enabled(s, a) && i < |Step(s, a).world.shipments| {
        StepStatus(s, a, i);
      }
    }
  }

  /** Where nobody updates shipments, every shipment is newly made. */
  lemma UntouchedIsMade(acts: seq<Action>, i: nat)
    requires forall a | a in acts :: !a.MarkShipment?
    requires i < |Exec(QUIET, acts).world.shipments|
    ensures Exec(QUIET, acts).world.shipments[i].status == ShipmentMade
  {
    StatusIsLastMark(acts, i);
    NeverMarked(acts, i);
  }

  lemma {:induction false} NeverMarked(acts: seq<Action>, i: nat)
    requires forall a | a in acts :: !a.MarkShipment?
    ensures LastMark(acts, i) == ShipmentMade
  {
    if acts != [] {
      NeverMarked(acts[..|acts| - 1], i);
      assert acts[|acts| - 1] in acts;
    }
  }
}
