/** How often handlers run for one publication when retries fan out to every bound queue. */
module RetryBound {
  import opened Domain
  import opened Mesh
  import opened Measures
  import opened Termination

  /** Handler runs a copy can still cause when it fails once more, in an exchange with `k` bound queues. */
  function RunsAfterFailure(k: nat, retry: nat): nat
    decreases RetriesLeft(retry), 0
  {
    if retry + 1 < MAX_RETRIES then RunsOfCopies(k, retry + 1) else 0
  }

  function RunsWhenReady(k: nat, retry: nat): nat
    decreases RetriesLeft(retry), 1
  {
    1 + RunsAfterFailure(k, retry)
  }

  /** Runs one publish to `k` queues can cause. */
  function RunsOfCopies(k: nat, retry: nat): nat
    decreases RetriesLeft(retry), 2
  {
    k * RunsWhenReady(k, retry)
  }

  function RunsLeft(id: nat): Slot -> nat {
    (x: Slot) =>
      if x.copy.id != id then 0
      else
        var k := |Bound(TypeOf(x.copy.event))|;
        match x.place
        case Ready => RunsWhenReady(k, x.copy.retry)
        case Requeued => 0
        case Dead => 0
        case _ => RunsAfterFailure(k, x.copy.retry)
  }

  ghost function Left(s: Mesh, id: nat): nat {
    Sum(s.slots, RunsLeft(id))
  }

  /** Runs so far plus runs still possible. */
  ghost function Runs(s: Mesh, id: nat): nat {
    s.executed[id] + Left(s, id)
  }

  function Bound3(k: nat): nat {
    k + k * k + k * k * k
  }

  lemma Cubic(k: nat)
    requires k <= 3
    ensures k * (1 + k * (1 + k)) == Bound3(k) <= 39
  {
  }

  lemma BoundMatches(k: nat)
    requires k <= 3
    ensures RunsOfCopies(k, 0) == Bound3(k) <= 39
  {
    assert RunsWhenReady(k, 2) == 1;
    assert RunsWhenReady(k, 1) == 1 + k;
    assert RunsWhenReady(k, 0) == 1 + k * (1 + k);
    Cubic(k);
  }

  lemma CopiedRuns(id: nat, e: Event, retry: nat, slept: nat, id': nat)
    ensures Sum(FanOut(id, e, retry, slept), RunsLeft(id')) ==
            if id' == id then RunsOfCopies(|Bound(TypeOf(e))|, retry) else 0
  {
    var w := if id' == id then RunsWhenReady(|Bound(TypeOf(e))|, retry) else 0;
    SumCopies(RunsLeft(id'), w, Bound(TypeOf(e)), id, e, retry, slept);
  }

  /** Runs of `id` a slot step leaves possible: in the slot's next place and in the copies made. */
  ghost function After(s: Mesh, a: Action, id: nat): nat
    requires Enabled(s, a) && OnSlot(a)
  {
    Sum(Copied(s, a), RunsLeft(id)) +
    if NextPlace(s, a).Some? then RunsLeft(id)(Slot(a.x.copy, NextPlace(s, a).value)) else 0
  }

  lemma PublishRuns(s: Mesh, x: Slot, id: nat)
    requires Enabled(s, Publish(x)) && id < |s.published|
    ensures After(s, Publish(x), id) == RunsLeft(id)(x)
  {
    CopiedRuns(|s.published|, x.place.out.value, 0, 0, id);
  }

  lemma RunsOf(m: multiset<Slot>, id: nat, e: Event, retry: nat, slept: nat, id': nat)
    requires m == FanOut(id, e, retry, slept)
    ensures Sum(m, RunsLeft(id')) == if id' == id then RunsOfCopies(|Bound(TypeOf(e))|, retry) else 0
  {
    CopiedRuns(id, e, retry, slept, id');
  }

  lemma RepublishedRuns(s: Mesh, x: Slot, id: nat)
    requires Enabled(s, Republish(x))
    ensures Sum(Copied(s, Republish(x)), RunsLeft(id)) ==
            if id == x.copy.id then RunsOfCopies(|Bound(TypeOf(x.copy.event))|, x.copy.retry + 1) else 0
  {
    CopiedByRetry(s, x);
    var c, r := x.copy, x.copy.retry + 1;
    RunsOf(Copied(s, Republish(x)), c.id, c.event, r, c.slept + Backoff(r), id);
  }

  lemma FailedSlotRuns(x: Slot, id: nat)
    requires x.place == Failed && x.copy.retry + 1 < MAX_RETRIES
    ensures RunsLeft(id)(x) ==
            if id == x.copy.id then RunsOfCopies(|Bound(TypeOf(x.copy.event))|, x.copy.retry + 1) else 0
    ensures RunsLeft(id)(Slot(x.copy, Requeued)) == 0
  {
  }

  lemma RepublishRuns(s: Mesh, x: Slot, id: nat)
    requires Enabled(s, Republish(x))
    ensures After(s, Republish(x), id) == RunsLeft(id)(x)
  {
    RepublishedRuns(s, x, id);
    FailedSlotRuns(x, id);
  }

  /** A fetch turns one possible run into history; an acknowledged success gives up the retries. */
  lemma SlotRuns(s: Mesh, a: Action, id: nat)
    requires Enabled(s, a) && OnSlot(a) && !IsRedelivery(a) && id < |s.published|
    ensures var run := if a.Fetch? && a.x.copy.id == id then 1 else 0;
            && After(s, a, id) + run <= RunsLeft(id)(a.x)
            && (!(a.Ack? && a.x.copy.id == id) ==> After(s, a, id) + run == RunsLeft(id)(a.x))
  {
    match a
    case Publish(x) => PublishRuns(s, x, id);
    case Republish(x) => RepublishRuns(s, x, id);
    case Fetch(_) => assert Copied(s, a) == multiset{};
    case Commit(_, _) => assert Copied(s, a) == multiset{};
    case Ack(_) => assert Copied(s, a) == multiset{};
    case Fail(_) => assert Copied(s, a) == multiset{};
    case AckRetried(_) => assert Copied(s, a) == multiset{};
    case Reject(_) => assert Copied(s, a) == multiset{};
  }

  lemma ExecutedAfter(s: Mesh, a: Action, id: nat)
    requires Enabled(s, a)
    ensures Step(s, a).executed[id] == s.executed[id] + if a.Fetch? && a.x.copy.id == id then 1 else 0
  {
  }

  /** No step but a redelivery adds runs, and only an acknowledgement of success saves some. */
  lemma StepRuns(s: Mesh, a: Action, id: nat)
    requires Enabled(s, a) && !IsRedelivery(a) && id < |s.published|
    ensures Runs(Step(s, a), id) <= Runs(s, id)
    ensures !(a.Ack? && a.x.copy.id == id) ==> Runs(Step(s, a), id) == Runs(s, id)
  {
    ExecutedAfter(s, a, id);
    if OnSlot(a) {
      SlotRuns(s, a, id);
      SlotSum(s, a, RunsLeft(id));
    } else {
      OtherSum(s, a, RunsLeft(id));
      if a.PublishTask? {
        CopiedRuns(|s.published|, a.event, 0, 0, id);
      }
    }
  }

  /** What is not published yet has neither run nor been queued. */
  ghost predicate Unheard(s: Mesh) {
    forall n | n in s.executed :: n < |s.published|
  }

  lemma StepUnheard(s: Mesh, a: Action)
    requires Faithful(s) && Unheard(s) && Enabled(s, a)
    ensures Unheard(Step(s, a))
  {
    HistoryGrows(s, a);
    forall n | n in Step(s, a).executed ensures n < |Step(s, a).published| {
      ExecutedAfter(s, a, n);
      if a.Fetch? && a.x.copy.id == n {
        assert FaithfulCopy(s, a.x.copy);
      }
    }
  }

  lemma UnheardRuns(s: Mesh)
    requires Faithful(s) && Unheard(s)
    ensures Runs(s, |s.published|) == 0
  {
    forall x | x in s.slots ensures RunsLeft(|s.published|)(x) == 0 {
      assert FaithfulCopy(s, x.copy);
    }
    SumZero(s.slots, RunsLeft(|s.published|));
  }

  /** The most runs one publication can cause. */
  function Limit(s: Mesh, id: nat): nat
    requires id < |s.published|
  {
    RunsOfCopies(|Bound(TypeOf(s.published[id]))|, 0)
  }

  lemma NewsByTask(s: Mesh, e: Event)
    requires Faithful(s) && Unheard(s) && Enabled(s, PublishTask(e))
    ensures Runs(Step(s, PublishTask(e)), |s.published|) == RunsOfCopies(|Bound(TypeOf(e))|, 0)
  {
    UnheardRuns(s);
    ExecutedAfter(s, PublishTask(e), |s.published|);
    CopiedRuns(|s.published|, e, 0, 0, |s.published|);
    OtherSum(s, PublishTask(e), RunsLeft(|s.published|));
  }

  lemma NewsByHandler(s: Mesh, x: Slot)
    requires Faithful(s) && Unheard(s) && Enabled(s, Publish(x))
    ensures Runs(Step(s, Publish(x)), |s.published|) == RunsOfCopies(|Bound(TypeOf(x.place.out.value))|, 0)
  {
    var id, e := |s.published|, x.place.out.value;
    UnheardRuns(s);
    ExecutedAfter(s, Publish(x), id);
    CopiedRuns(id, e, 0, 0, id);
    assert FaithfulCopy(s, x.copy);
    SlotSum(s, Publish(x), RunsLeft(id));
  }

  lemma LimitAfter(s: Mesh, a: Action, id: nat)
    requires Enabled(s, a) && id < |Step(s, a).published|
    ensures id < |s.published| ==> Limit(Step(s, a), id) == Limit(s, id)
    ensures id >= |s.published| ==>
              && id == |s.published| && (a.Publish? || a.PublishTask?)
              && Step(s, a).published[id] == if a.Publish? then a.x.place.out.value else a.event
  {
    HistoryGrows(s, a);
    PublishesOne(s, a);
  }

  /** One step keeps the limit, and keeps it exactly unless it acknowledges this publication. */
  lemma StepWithinLimit(s: Mesh, a: Action, id: nat, exact: bool)
    requires Faithful(s) && Unheard(s) && Enabled(s, a) && !IsRedelivery(a)
    requires id < |Step(s, a).published|
    requires id < |s.published| ==> Runs(s, id) <= Limit(s, id) && (exact ==> Runs(s, id) == Limit(s, id))
    requires exact ==> !(a.Ack? && a.x.copy.id == id)
    ensures Runs(Step(s, a), id) <= Limit(Step(s, a), id)
    ensures exact ==> Runs(Step(s, a), id) == Limit(Step(s, a), id)
  {
    LimitAfter(s, a, id);
    if id < |s.published| {
      StepRuns(s, a, id);
    } else if a.Publish? {
      NewsByHandler(s, a.x);
    } else {
      NewsByTask(s, a.event);
    }
  }

  predicate Quietly(acts: seq<Action>) {
    forall a | a in acts :: !IsRedelivery(a)
  }

  predicate NeverAcked(acts: seq<Action>, id: nat) {
    forall a | a in acts :: !(a.Ack? && a.x.copy.id == id)
  }

  lemma {:induction false} RunUnheard(acts: seq<Action>)
    ensures Faithful(Exec(QUIET, acts)) && Unheard(Exec(QUIET, acts))
  {
    RunFaithful(acts);
    if acts != [] {
      var n := |acts| - 1;
      RunUnheard(acts[..n]);
      if Enabled(Exec(QUIET, acts[..n]), acts[n]) {
        StepUnheard(Exec(QUIET, acts[..n]), acts[n]);
      }
    }
  }

  lemma {:induction false} RunRuns(acts: seq<Action>, id: nat, exact: bool)
    requires Quietly(acts) && id < |Exec(QUIET, acts).published|
    requires exact ==> NeverAcked(acts, id)
    ensures Runs(Exec(QUIET, acts), id) <= Limit(Exec(QUIET, acts), id)
    ensures exact ==> Runs(Exec(QUIET, acts), id) == Limit(Exec(QUIET, acts), id)
  {
    if acts != [] {
      var init, a := acts[..|acts| - 1], acts[|acts| - 1];
      assert acts == init + [a];
      var s := Exec(QUIET, init);
      if id < |s.published| {
        RunRuns(init, id, exact);
      }
      if Enabled(s, a) {
        RunUnheard(init);
        StepWithinLimit(s, a, id, exact);
      }
    }
  }

  /** One publication bound to k queues is handled at most k + k^2 + k^3 times: 39 for StockReserved. */
  lemma RetryFanOutBound(acts: seq<Action>, id: nat)
    requires Quietly(acts) && id < |Exec(QUIET, acts).published|
    ensures var s := Exec(QUIET, acts);
            var k := |Bound(TypeOf(s.published[id]))|;
            s.executed[id] <= k + k * k + k * k * k <= 39
  {
    RunRuns(acts, id, false);
    BoundMatches(|Bound(TypeOf(Exec(QUIET, acts).published[id]))|);
  }

  /** When no handling is ever acknowledged and all copies are dead, it was exactly that many. */
  lemma RetryFanOutExact(acts: seq<Action>, id: nat)
    requires Quietly(acts) && id < |Exec(QUIET, acts).published|
    requires NeverAcked(acts, id)
    requires forall x | x in Exec(QUIET, acts).slots && x.copy.id == id :: x.place == Dead
    ensures var s := Exec(QUIET, acts);
            var k := |Bound(TypeOf(s.published[id]))|;
            s.executed[id] == k + k * k + k * k * k
  {
    RunRuns(acts, id, true);
    var s := Exec(QUIET, acts);
    BoundMatches(|Bound(TypeOf(s.published[id]))|);
    SumZero(s.slots, RunsLeft(id));
    assert Left(s, id) == 0;
  }

  /** What a handler that always fails does next with a copy that is not dead yet. */
  function NextFailure(x: Slot): Action {
    match x.place
    case Ready => Fetch(x)
    case Failed => if x.copy.retry + 1 < MAX_RETRIES then Republish(x) else Reject(x)
    case Requeued => AckRetried(x)
    case _ => Fail(x)
  }

  predicate Failing(a: Action) {
    a.Fetch? || a.Fail? || a.Republish? || a.AckRetried? || a.Reject?
  }

  lemma FailureIsPossible(s: Mesh, x: Slot)
    requires x in s.slots && x.place != Dead
    ensures Enabled(s, NextFailure(x)) && Failing(NextFailure(x)) && OnSlot(NextFailure(x))
    ensures Step(s, NextFailure(x)).published == s.published
    ensures Work(Step(s, NextFailure(x))) < Work(s)
  {
    SlotStepWork(s, NextFailure(x));
  }

  /** From `s`, failing steps alone lead to a mesh in which every copy of `id` is dead. */
  predicate FailsOut(s: Mesh, id: nat, more: seq<Action>) {
    && (forall a | a in more :: Failing(a))
    && Exec(s, more).published == s.published
    && AllDead(Exec(s, more), id)
  }

  predicate AllDead(s: Mesh, id: nat) {
    forall x | x in s.slots && x.copy.id == id :: x.place == Dead
  }

  lemma FailsOutFirst(s: Mesh, id: nat, a: Action, more: seq<Action>)
    requires Enabled(s, a) && Failing(a) && Step(s, a).published == s.published
    requires FailsOut(Step(s, a), id, more)
    ensures FailsOut(s, id, [a] + more)
  {
    ExecOne(s, [], a);
    assert [] + [a] == [a];
    InSequence(s, [a], more);
  }

  lemma {:induction false} FailuresRunOut(s: Mesh, id: nat) returns (more: seq<Action>)
    ensures FailsOut(s, id, more)
    decreases Work(s)
  {
    if !AllDead(s, id) {
      var x :| x in s.slots && x.copy.id == id && x.place != Dead;
      var a := NextFailure(x);
      FailureIsPossible(s, x);
      var rest := FailuresRunOut(Step(s, a), id);
      FailsOutFirst(s, id, a, rest);
      more := [a] + rest;
    } else {
      more := [];
    }
  }

  /** The bound is attained for every publication no copy of which has been acknowledged yet. */
  lemma RetryFanOutAttained(acts: seq<Action>, id: nat)
    requires Quietly(acts) && NeverAcked(acts, id) && id < |Exec(QUIET, acts).published|
    ensures exists more: seq<Action> ::
              var k := |Bound(TypeOf(Exec(QUIET, acts).published[id]))|;
              Quietly(acts + more) && Exec(QUIET, acts + more).executed[id] == k + k * k + k * k * k
  {
    var s := Exec(QUIET, acts);
    var more := FailuresRunOut(s, id);
    InSequence(QUIET, acts, more);
    RetryFanOutExact(acts + more, id);
  }
}
