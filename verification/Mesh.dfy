/**
 * At-least-once delivery of the whole mesh. A message copy moves through the places of the
 * consumer's protocol one step at a time; a step that is not possible leaves the mesh as it is,
 * so a run is just any sequence of actions.
 */
module Mesh {
  import opened Runs
  import opened Domain
  import opened Saga

  const MAX_RETRIES: nat := 3

  /** A message in one queue: the publication it belongs to, its body and its `x-retry` header. */
  datatype Copy = Copy(queue: Queue, id: nat, event: Event, retry: nat, slept: nat)

  /**
   * Ready: in the queue. Taken: delivered, handler not committed. Committed: database committed,
   * announcement still to be published. Announced: published, to be acked. Failed: an exception was
   * caught. Requeued: republished, to be acked. Dead: in the queue's dead-letter queue.
   */
  datatype Place = Ready | Taken | Committed(out: Option<Event>) | Announced | Failed | Requeued | Dead

  datatype Slot = Slot(copy: Copy, place: Place)

  /** Work an HTTP request still has to do; it is lost when the process dies. */
  datatype Task = Announce(event: Event) | CancelWrite(order: int)

  /** `published`, `done` and `executed` are history; `executed` counts handler runs per publication. */
  datatype Mesh = Mesh(
    world: World,
    slots: multiset<Slot>,
    tasks: multiset<Task>,
    published: seq<Event>,
    done: set<(Queue, nat)>,
    executed: multiset<nat>)

  const QUIET := Mesh(NOTHING, multiset{}, multiset{}, [], {}, multiset{})

  datatype Action =
    | Fetch(x: Slot)
    | Commit(x: Slot, env: Env)
    | Publish(x: Slot)
    | Ack(x: Slot)
    | Fail(x: Slot)
    | Republish(x: Slot)
    | AckRetried(x: Slot)
    | Reject(x: Slot)
    | Crash(x: Slot)
    | Redeliver(x: Slot)
    | PublishTask(event: Event)
    | WriteCancel(order: int)
    | Drop(task: Task)
    | NewProduct(product: int, quantity: int)
    | NewOrder(order: int, customer: int, lines: seq<Line>)
    | AskCancel(order: int)
    | MarkShipment(index: nat, status: ShipmentStatus)

  function Power2(n: nat): nat {
    if n == 0 then 1 else 2 * Power2(n - 1)
  }

  /** Seconds slept before republishing with this retry count. */
  function Backoff(retry: nat): nat {
    if Power2(retry) < 10 then Power2(retry) else 10
  }

  /** What a copy with this retry count has slept for, since its publication. */
  function Slept(retry: nat): nat {
    if retry == 0 then 0 else Slept(retry - 1) + Backoff(retry)
  }

  function Copies(qs: seq<Queue>, id: nat, e: Event, retry: nat, slept: nat): (r: multiset<Slot>)
    ensures forall x :: x in r <==>
                          x.place == Ready && x.copy.queue in qs && x.copy == Copy(x.copy.queue, id, e, retry, slept)
  {
    if qs == [] then multiset{}
    else Copies(qs[1..], id, e, retry, slept) + multiset{Slot(Copy(qs[0], id, e, retry, slept), Ready)}
  }

  /** The exchange copies a message to every queue bound to its type. */
  function FanOut(id: nat, e: Event, retry: nat, slept: nat): multiset<Slot> {
    Copies(Bound(TypeOf(e)), id, e, retry, slept)
  }

  /** The copy a republished `c` leaves in queue `q`: one more retry, one more sleep. */
  function NextTry(c: Copy, q: Queue): Copy {
    Copy(q, c.id, c.event, c.retry + 1, c.slept + Backoff(c.retry + 1))
  }

  /** What republishing `c` puts into queues: the exchange knows nothing of the queue that failed. */
  function Retries(c: Copy): multiset<Slot> {
    FanOut(c.id, c.event, c.retry + 1, c.slept + Backoff(c.retry + 1))
  }

  lemma RetriesAre(c: Copy, y: Slot)
    ensures y in Retries(c) <==>
            y.place == Ready && y.copy.queue in Bound(TypeOf(c.event)) && y.copy == NextTry(c, y.copy.queue)
  {
  }

  function Post(s: Mesh, e: Event): Mesh {
    s.(published := s.published + [e], slots := s.slots + FanOut(|s.published|, e, 0, 0))
  }

  function Advance(s: Mesh, x: Slot, place: Place): Mesh {
    s.(slots := s.slots - multiset{x} + multiset{Slot(x.copy, place)})
  }

  predicate InFlight(place: Place) {
    place != Ready && place != Dead
  }

  predicate Enabled(s: Mesh, a: Action) {
    match a
    case Fetch(x) => x in s.slots && x.place == Ready
    case Commit(x, env) => x in s.slots && x.place == Taken && FreshId(s.world.shipments, env.id)
    case Publish(x) => x in s.slots && x.place.Committed? && x.place.out.Some?
    case Ack(x) => x in s.slots && x.place in {Announced, Committed(None)}
    case Fail(x) => x in s.slots && (x.place.Taken? || x.place.Committed? || x.place.Announced?)
    case Republish(x) => x in s.slots && x.place == Failed && x.copy.retry + 1 < MAX_RETRIES
    case AckRetried(x) => x in s.slots && x.place == Requeued
    case Reject(x) => x in s.slots && x.place == Failed && x.copy.retry + 1 >= MAX_RETRIES
    case Crash(x) => x in s.slots && InFlight(x.place)
    case Redeliver(x) => x in s.slots && InFlight(x.place)
    case PublishTask(e) => Announce(e) in s.tasks
    case WriteCancel(o) => CancelWrite(o) in s.tasks && o in s.world.orders
    case Drop(t) => t in s.tasks
    case NewProduct(p, q) => p !in s.world.created && 0 <= q
    case NewOrder(o, _, lines) => o !in s.world.orders && ValidLines(lines)
    case AskCancel(o) => Cancellable(s.world.orders, o)
    case MarkShipment(i, _) => i < |s.world.shipments|
  }

  function Step(s: Mesh, a: Action): Mesh
    requires Enabled(s, a)
  {
    match a
    case Fetch(x) => Advance(s, x, Taken).(executed := s.executed + multiset{x.copy.id})
    case Commit(x, env) =>
      var r := Handle(x.copy.queue, x.copy.event, s.world, env);
      Advance(s, x, Committed(r.out)).(world := r.world)
    case Publish(x) => Post(Advance(s, x, Announced), x.place.out.value)
    case Ack(x) => s.(slots := s.slots - multiset{x}, done := s.done + {(x.copy.queue, x.copy.id)})
    case Fail(x) => Advance(s, x, Failed)
    case Republish(x) =>
      var s1 := Advance(s, x, Requeued);
      s1.(slots := s1.slots + Retries(x.copy))
    case AckRetried(x) => s.(slots := s.slots - multiset{x})
    case Reject(x) => Advance(s, x, Dead)
    case Crash(x) => Advance(s, x, Ready)
    case Redeliver(x) => s.(slots := s.slots + multiset{Slot(x.copy, Ready)})
    case PublishTask(e) => Post(s.(tasks := s.tasks - multiset{Announce(e)}), e)
    case WriteCancel(o) =>
      s.(world := s.world.(orders := SetStatus(s.world.orders, o, Cancelled)),
         tasks := s.tasks - multiset{CancelWrite(o)} + multiset{Announce(Cancellation(s.world.orders, o))})
    case Drop(t) => s.(tasks := s.tasks - multiset{t})
    case NewProduct(p, q) => s.(world := AddProduct(s.world, p, q))
    case NewOrder(o, customer, lines) =>
      s.(world := AddOrder(s.world, o, customer, lines),
         tasks := s.tasks + multiset{Announce(Placed(o, customer, lines))})
    case AskCancel(o) => s.(tasks := s.tasks + multiset{CancelWrite(o)})
    case MarkShipment(i, status) =>
      s.(world := MarkRow(s.world, i, status),
         tasks := if status == Arrived then s.tasks + multiset{Announce(Arrival(s.world.shipments[i]))} else s.tasks)
  }

  function Apply(s: Mesh, a: Action): Mesh {
    if Enabled(s, a) then Step(s, a) else s
  }

  function Exec(s: Mesh, acts: seq<Action>): Mesh {
    Fold(Apply, s, acts)
  }

  /** Every action of the run is possible at its turn. */
  predicate AllEnabled(s: Mesh, acts: seq<Action>) {
    Possible(Enabled, Apply, s, acts)
  }

  lemma ExecOne(s: Mesh, acts: seq<Action>, a: Action)
    ensures Exec(s, acts + [a]) == Apply(Exec(s, acts), a)
  {
    FoldOne(Apply, s, acts, a);
  }

  lemma OneMore(s: Mesh, acts: seq<Action>, a: Action)
    requires AllEnabled(s, acts) && Enabled(Exec(s, acts), a)
    ensures AllEnabled(s, acts + [a]) && Exec(s, acts + [a]) == Step(Exec(s, acts), a)
  {
    FoldOne(Apply, s, acts, a);
    PossibleOne(Enabled, Apply, s, acts, a);
  }

  lemma InSequence(s: Mesh, first: seq<Action>, second: seq<Action>)
    ensures Exec(s, first + second) == Exec(Exec(s, first), second)
    ensures AllEnabled(s, first + second) <==> AllEnabled(s, first) && AllEnabled(Exec(s, first), second)
  {
    FoldJoin(Apply, s, first, second);
    PossibleJoin(Enabled, Apply, s, first, second);
  }

  /** `m1` is where the steps `acts` lead from `m0`, and each of them was possible at its turn. */
  predicate Ran(m0: Mesh, acts: seq<Action>, m1: Mesh) {
    AllEnabled(m0, acts) && m1 == Exec(m0, acts)
  }

  lemma RanOne(m: Mesh, a: Action)
    requires Enabled(m, a)
    ensures Ran(m, [a], Step(m, a))
  {
    OneMore(m, [], a);
    assert [] + [a] == [a];
  }

  lemma RanThen(m0: Mesh, first: seq<Action>, m1: Mesh, second: seq<Action>, m2: Mesh)
    requires Ran(m0, first, m1) && Ran(m1, second, m2)
    ensures Ran(m0, first + second, m2)
  {
    InSequence(m0, first, second);
  }

  ghost predicate Reaches(m0: Mesh, m1: Mesh) {
    exists acts :: Ran(m0, acts, m1)
  }

  lemma ReachesItself(m: Mesh)
    ensures Reaches(m, m)
  {
    assert Ran(m, [], m);
  }

  lemma ReachesNext(m0: Mesh, m: Mesh, a: Action)
    requires Reaches(m0, m) && Enabled(m, a)
    ensures Reaches(m0, Step(m, a))
  {
    var acts :| Ran(m0, acts, m);
    OneMore(m0, acts, a);
    assert Ran(m0, acts + [a], Step(m, a));
  }

  // ----- where slots come from and where they go -----

  predicate OnSlot(a: Action) {
    a.Fetch? || a.Commit? || a.Publish? || a.Ack? || a.Fail? || a.Republish? || a.AckRetried? || a.Reject? ||
    a.Crash? || a.Redeliver?
  }

  lemma HistoryGrows(s: Mesh, a: Action)
    requires Enabled(s, a)
    ensures s.published <= Step(s, a).published && s.done <= Step(s, a).done
  {
  }

  predicate IsRetryOf(c1: Copy, c: Copy) {
    && c.retry + 1 < MAX_RETRIES && c1.queue in Bound(TypeOf(c.event))
    && c1 == NextTry(c, c1.queue)
  }

  /** `c` is the first copy of the event published last. */
  predicate IsNews(published: seq<Event>, c: Copy) {
    && 0 < |published| && c.queue in Bound(TypeOf(c.event))
    && c == Copy(c.queue, |published| - 1, published[|published| - 1], 0, 0)
  }

  /** A new slot is the old one in its next place, a ready copy of a new publication, or a retry. */
  lemma Origin(s: Mesh, a: Action, y: Slot)
    requires Enabled(s, a) && y in Step(s, a).slots && y !in s.slots
    ensures
      || (OnSlot(a) && a.x in s.slots && y.copy == a.x.copy)
      || ((a.Publish? || a.PublishTask?) && y.place == Ready && IsNews(Step(s, a).published, y.copy))
      || (a.Republish? && a.x in s.slots && y.place == Ready && IsRetryOf(y.copy, a.x.copy))
  {
    if a.Publish? || a.PublishTask? {
      NewsOrigin(s, a, y);
    } else if a.Republish? {
      RetryOrigin(s, a.x, y);
    } else if OnSlot(a) {
      MoverOrigin(s, a, y);
    }
  }

  lemma RetryOrigin(s: Mesh, x: Slot, y: Slot)
    requires Enabled(s, Republish(x)) && y in Step(s, Republish(x)).slots && y !in s.slots
    ensures y.copy == x.copy || (y.place == Ready && IsRetryOf(y.copy, x.copy))
  {
    AdvanceAdds(s, x, Requeued, y);
    RetriesAre(x.copy, y);
    assert y in Advance(s, x, Requeued).slots || y in Retries(x.copy);
  }

  lemma PostAdds(s: Mesh, e: Event, y: Slot)
    ensures y in Post(s, e).slots <==> y in s.slots || (y.place == Ready && IsNews(Post(s, e).published, y.copy))
  {
    assert Post(s, e).published[|s.published|] == e;
  }

  lemma NewsOrigin(s: Mesh, a: Action, y: Slot)
    requires Enabled(s, a) && (a.Publish? || a.PublishTask?) && y in Step(s, a).slots && y !in s.slots
    ensures (a.Publish? && y.copy == a.x.copy) || (y.place == Ready && IsNews(Step(s, a).published, y.copy))
  {
    if a.Publish? {
      AdvanceAdds(s, a.x, Announced, y);
      PostAdds(Advance(s, a.x, Announced), a.x.place.out.value, y);
    } else {
      PostAdds(s.(tasks := s.tasks - multiset{Announce(a.event)}), a.event, y);
    }
  }

  lemma MoverOrigin(s: Mesh, a: Action, y: Slot)
    requires Enabled(s, a) && OnSlot(a) && !a.Publish? && !a.Republish? && y in Step(s, a).slots && y !in s.slots
    ensures a.x in s.slots && y.copy == a.x.copy
  {
  }

  lemma AdvanceAdds(s: Mesh, x: Slot, place: Place, y: Slot)
    requires y !in s.slots
    ensures y in Advance(s, x, place).slots <==> y == Slot(x.copy, place)
  {
  }

  /** Where the slot an action worked on is afterwards. */
  function NextPlace(s: Mesh, a: Action): Option<Place>
    requires OnSlot(a)
  {
    match a
    case Fetch(_) => Some(Taken)
    case Commit(x, env) => Some(Committed(Handle(x.copy.queue, x.copy.event, s.world, env).out))
    case Publish(_) => Some(Announced)
    case Fail(_) => Some(Failed)
    case Republish(_) => Some(Requeued)
    case Reject(_) => Some(Dead)
    case Crash(_) => Some(Ready)
    case Redeliver(_) => Some(Ready)
    case _ => None
  }

  lemma Moves(s: Mesh, a: Action)
    requires Enabled(s, a) && OnSlot(a)
    ensures NextPlace(s, a).Some? ==> Slot(a.x.copy, NextPlace(s, a).value) in Step(s, a).slots
    ensures a.Ack? ==> (a.x.copy.queue, a.x.copy.id) in Step(s, a).done
  {
  }

  lemma Stays(s: Mesh, a: Action, y: Slot)
    requires Enabled(s, a) && y in s.slots
    requires !OnSlot(a) || a.x != y
    ensures y in Step(s, a).slots
  {
    if a.Redeliver? || a.Ack? || a.AckRetried? {
      assert OnSlot(a);
    } else if OnSlot(a) {
      AdvanceKeeps(s, a.x, NextPlace(s, a).value, y);
    }
  }

  lemma AdvanceKeeps(s: Mesh, x: Slot, place: Place, y: Slot)
    requires y in s.slots && y != x
    ensures y in Advance(s, x, place).slots
  {
  }

  lemma RetryIsQueued(s: Mesh, x: Slot, q: Queue)
    requires Enabled(s, Republish(x)) && q in Bound(TypeOf(x.copy.event))
    ensures Slot(NextTry(x.copy, q), Ready) in Step(s, Republish(x)).slots
  {
    RetriesAre(x.copy, Slot(NextTry(x.copy, q), Ready));
  }

  lemma OnlyTheseTwoPublish(s: Mesh, a: Action)
    requires Enabled(s, a) && |Step(s, a).published| > |s.published|
    ensures a.Publish? || a.PublishTask?
  {
  }

  lemma NewsIsQueued(s: Mesh, a: Action, q: Queue)
    requires Enabled(s, a) && |Step(s, a).published| > |s.published|
    requires q in Bound(TypeOf(Step(s, a).published[|s.published|]))
    ensures Slot(Copy(q, |s.published|, Step(s, a).published[|s.published|], 0, 0), Ready) in Step(s, a).slots
  {
    OnlyTheseTwoPublish(s, a);
    var y := Slot(Copy(q, |s.published|, Step(s, a).published[|s.published|], 0, 0), Ready);
    if a.Publish? {
      PostAdds(Advance(s, a.x, Announced), a.x.place.out.value, y);
    } else {
      PostAdds(s.(tasks := s.tasks - multiset{Announce(a.event)}), a.event, y);
    }
  }

  // ----- every copy is a faithful copy -----

  predicate FaithfulCopy(s: Mesh, c: Copy) {
    && c.id < |s.published| && c.event == s.published[c.id]
    && c.queue in Bound(TypeOf(c.event))
    && c.retry < MAX_RETRIES && c.slept == Slept(c.retry)
  }

  ghost predicate Faithful(s: Mesh) {
    forall x | x in s.slots :: FaithfulCopy(s, x.copy)
  }

  lemma StepFaithful(s: Mesh, a: Action)
    requires Faithful(s) && Enabled(s, a)
    ensures Faithful(Step(s, a))
  {
    HistoryGrows(s, a);
    forall y | y in Step(s, a).slots ensures FaithfulCopy(Step(s, a), y.copy) {
      if y in s.slots {
        FaithfulLater(s, Step(s, a), y.copy);
      } else {
        NewcomerFaithful(s, a, y);
      }
    }
  }

  lemma NewcomerFaithful(s: Mesh, a: Action, y: Slot)
    requires Faithful(s) && Enabled(s, a) && y in Step(s, a).slots && y !in s.slots
    ensures FaithfulCopy(Step(s, a), y.copy)
  {
    HistoryGrows(s, a);
    Origin(s, a, y);
    if OnSlot(a) && a.x in s.slots {
      FaithfulLater(s, Step(s, a), a.x.copy);
    }
    if OnSlot(a) && IsRetryOf(y.copy, a.x.copy) && a.x in s.slots {
      RetryFaithful(Step(s, a), a.x.copy, y.copy);
    } else if IsNews(Step(s, a).published, y.copy) {
      NewsFaithful(Step(s, a), y.copy);
    }
  }

  lemma RetryFaithful(s: Mesh, c: Copy, c1: Copy)
    requires FaithfulCopy(s, c) && IsRetryOf(c1, c)
    ensures FaithfulCopy(s, c1)
  {
    assert Slept(c.retry + 1) == Slept(c.retry) + Backoff(c.retry + 1);
  }

  lemma NewsFaithful(s: Mesh, c: Copy)
    requires IsNews(s.published, c)
    ensures FaithfulCopy(s, c)
  {
  }

  lemma FaithfulLater(s: Mesh, s1: Mesh, c: Copy)
    requires Faithful(s) && s.published <= s1.published && exists x :: x in s.slots && x.copy == c
    ensures FaithfulCopy(s1, c)
  {
  }

  // ----- no event is lost -----

  predicate Live(y: Slot, q: Queue, id: nat) {
    y.copy.queue == q && y.copy.id == id && y.place != Requeued
  }

  /** Some copy of publication `id` for queue `q` will still be handled, or was dead-lettered. */
  ghost predicate Pending(s: Mesh, q: Queue, id: nat) {
    exists y :: y in s.slots && Live(y, q, id)
  }

  ghost predicate Kept(s: Mesh, q: Queue, id: nat) {
    (q, id) in s.done || Pending(s, q, id)
  }

  ghost predicate NothingLost(s: Mesh) {
    forall id, q | 0 <= id < |s.published| && q in Bound(TypeOf(s.published[id])) :: Kept(s, q, id)
  }

  /** The copy a step works on is acknowledged, still live in its next place, or followed by a retry. */
  lemma MoverKept(s: Mesh, a: Action, q: Queue, id: nat)
    requires Enabled(s, a) && OnSlot(a) && FaithfulCopy(s, a.x.copy) && Live(a.x, q, id)
    ensures Kept(Step(s, a), q, id)
  {
    Moves(s, a);
    if a.Republish? {
      RetryIsQueued(s, a.x, q);
      assert Live(Slot(NextTry(a.x.copy, q), Ready), q, id);
    } else if !a.Ack? {
      assert Live(Slot(a.x.copy, NextPlace(s, a).value), q, id);
    }
  }

  lemma StaysKept(s: Mesh, a: Action, q: Queue, id: nat)
    requires Faithful(s) && Enabled(s, a) && Kept(s, q, id)
    ensures Kept(Step(s, a), q, id)
  {
    HistoryGrows(s, a);
    if (q, id) !in s.done {
      var y :| y in s.slots && Live(y, q, id);
      assert FaithfulCopy(s, y.copy);
      if OnSlot(a) && a.x == y {
        MoverKept(s, a, q, id);
      } else {
        Stays(s, a, y);
      }
    }
  }

  lemma StepLosesNothing(s: Mesh, a: Action)
    requires Faithful(s) && NothingLost(s) && Enabled(s, a)
    ensures NothingLost(Step(s, a))
  {
    var s1 := Step(s, a);
    HistoryGrows(s, a);
    forall id, q | 0 <= id < |s1.published| && q in Bound(TypeOf(s1.published[id]))
      ensures Kept(s1, q, id)
    {
      if id < |s.published| {
        StaysKept(s, a, q, id);
      } else {
        PublishesOne(s, a);
        NewsIsQueued(s, a, q);
        assert Live(Slot(Copy(q, id, s1.published[id], 0, 0), Ready), q, id);
      }
    }
  }

  lemma PublishesOne(s: Mesh, a: Action)
    requires Enabled(s, a)
    ensures |s.published| <= |Step(s, a).published| <= |s.published| + 1
  {
  }

  lemma {:induction false} RunFaithful(acts: seq<Action>)
    ensures Faithful(Exec(QUIET, acts)) && NothingLost(Exec(QUIET, acts))
  {
    if acts != [] {
      var n := |acts| - 1;
      var s := Exec(QUIET, acts[..n]);
      RunFaithful(acts[..n]);
      if Enabled(s, acts[n]) {
        StepFaithful(s, acts[n]);
        StepLosesNothing(s, acts[n]);
      }
    }
  }

  /**
   * No event is lost: whatever crashes, repeats, retries and failures happened, each queue bound to
   * a published event has completed its handler, or holds a ready, in-flight or dead copy of it.
   */
  lemma NoEventLost(acts: seq<Action>)
    ensures var s := Exec(QUIET, acts);
            forall id, q | 0 <= id < |s.published| && q in Bound(TypeOf(s.published[id])) ::
              || (q, id) in s.done
              || exists x :: x in s.slots && x.copy == Copy(q, id, s.published[id], x.copy.retry, x.copy.slept)
                             && x.copy.retry < MAX_RETRIES && x.place != Requeued
  {
    RunFaithful(acts);
    var s := Exec(QUIET, acts);
    forall id, q | 0 <= id < |s.published| && q in Bound(TypeOf(s.published[id])) && (q, id) !in s.done
      ensures exists x :: x in s.slots && x.copy == Copy(q, id, s.published[id], x.copy.retry, x.copy.slept)
                          && x.copy.retry < MAX_RETRIES && x.place != Requeued
    {
      assert Kept(s, q, id);
      var x :| x in s.slots && Live(x, q, id);
      assert FaithfulCopy(s, x.copy);
    }
  }

  /** A retry lineage sleeps at most six seconds, and no queue ever holds a fourth attempt. */
  lemma RetriesBounded(acts: seq<Action>, x: Slot)
    requires x in Exec(QUIET, acts).slots
    ensures x.copy.retry <= 2 && x.copy.slept <= 6
  {
    RunFaithful(acts);
    assert FaithfulCopy(Exec(QUIET, acts), x.copy);
    SleepPerRetry(x.copy.retry);
  }

  lemma SleepPerRetry(retry: nat)
    requires retry < MAX_RETRIES
    ensures Slept(retry) == [0, 2, 6][retry]
  {
    assert Power2(1) == 2 && Power2(2) == 4;
    assert Slept(1) == Slept(0) + Backoff(1);
    assert Slept(2) == Slept(1) + Backoff(2);
  }
}
