/** Sums over multisets, and how the sum of a measure over the slots changes in one step of the mesh. */
module Measures {
  import opened Domain
  import opened Mesh

  ghost function Sum<T>(m: multiset<T>, f: T -> nat): nat
    decreases |m|
  {
    if m == multiset{} then 0
    else
      var x :| x in m;
      f(x) + Sum(m - multiset{x}, f)
  }

  lemma {:induction false} SumRemove<T>(m: multiset<T>, f: T -> nat, x: T)
    requires x in m
    ensures Sum(m, f) == f(x) + Sum(m - multiset{x}, f)
    decreases |m|
  {
    var y :| y in m && Sum(m, f) == f(y) + Sum(m - multiset{y}, f);
    if y != x {
      SumRemove(m - multiset{y}, f, x);
      SumRemove(m - multiset{x}, f, y);
      assert m - multiset{y} - multiset{x} == m - multiset{x} - multiset{y};
    }
  }

  lemma SumAdd<T>(m: multiset<T>, f: T -> nat, x: T)
    ensures Sum(m + multiset{x}, f) == Sum(m, f) + f(x)
  {
    SumRemove(m + multiset{x}, f, x);
    assert m + multiset{x} - multiset{x} == m;
  }

  lemma SumReplace<T>(m: multiset<T>, f: T -> nat, x: T, y: T)
    requires x in m
    ensures Sum(m - multiset{x} + multiset{y}, f) + f(x) == Sum(m, f) + f(y)
  {
    SumRemove(m, f, x);
    SumAdd(m - multiset{x}, f, y);
  }

  lemma {:induction false} SumUnion<T>(m: multiset<T>, n: multiset<T>, f: T -> nat)
    ensures Sum(m + n, f) == Sum(m, f) + Sum(n, f)
    decreases |n|
  {
    if n == multiset{} {
      assert m + n == m;
    } else {
      var x :| x in n;
      SumUnion(m, n - multiset{x}, f);
      SumRemove(n, f, x);
      SumRemove(m + n, f, x);
      assert m + n - multiset{x} == m + (n - multiset{x});
    }
  }

  lemma {:induction false} SumZero<T>(m: multiset<T>, f: T -> nat)
    requires forall x | x in m :: f(x) == 0
    ensures Sum(m, f) == 0
    decreases |m|
  {
    if m != multiset{} {
      var x :| x in m;
      SumRemove(m, f, x);
      SumZero(m - multiset{x}, f);
    }
  }

  lemma Distribute(n: nat, w: nat)
    requires 0 < n
    ensures n * w == (n - 1) * w + w
  {
  }

  lemma SumOneMore(f: Slot -> nat, m: multiset<Slot>, x: Slot, n: nat, w: nat)
    requires f(x) == w && Sum(m, f) == n * w
    ensures Sum(m + multiset{x}, f) == (n + 1) * w
  {
    SumAdd(m, f, x);
    Distribute(n + 1, w);
  }

  lemma {:induction false} SumCopies(f: Slot -> nat, w: nat, qs: seq<Queue>, id: nat, e: Event, retry: nat, slept: nat)
    requires forall q :: f(Slot(Copy(q, id, e, retry, slept), Ready)) == w
    ensures Sum(Copies(qs, id, e, retry, slept), f) == |qs| * w
  {
    if qs != [] {
      var rest := Copies(qs[1..], id, e, retry, slept);
      var x := Slot(Copy(qs[0], id, e, retry, slept), Ready);
      SumCopies(f, w, qs[1..], id, e, retry, slept);
      assert Copies(qs, id, e, retry, slept) == rest + multiset{x};
      SumOneMore(f, rest, x, |qs| - 1, w);
    }
  }

  predicate IsRedelivery(a: Action) {
    a.Crash? || a.Redeliver?
  }

  /** The copies a step puts into queues besides moving its own slot. */
  function Copied(s: Mesh, a: Action): multiset<Slot>
    requires Enabled(s, a)
  {
    match a
    case Publish(x) => FanOut(|s.published|, x.place.out.value, 0, 0)
    case PublishTask(e) => FanOut(|s.published|, e, 0, 0)
    case Republish(x) => Retries(x.copy)
    case _ => multiset{}
  }

  lemma CopiedByRetry(s: Mesh, x: Slot)
    requires Enabled(s, Republish(x))
    ensures Copied(s, Republish(x)) == Retries(x.copy)
  {
  }

  lemma SlotsAfter(s: Mesh, a: Action)
    requires Enabled(s, a) && OnSlot(a) && !IsRedelivery(a)
    ensures NextPlace(s, a).Some? ==>
              Step(s, a).slots == s.slots - multiset{a.x} + multiset{Slot(a.x.copy, NextPlace(s, a).value)} + Copied(s, a)
    ensures NextPlace(s, a).None? ==> Step(s, a).slots == s.slots - multiset{a.x} && Copied(s, a) == multiset{}
  {
  }

  /** The books of one slot step: what leaves, what takes its place, what is copied. */
  lemma SlotSum(s: Mesh, a: Action, f: Slot -> nat)
    requires Enabled(s, a) && OnSlot(a) && !IsRedelivery(a)
    ensures Sum(Step(s, a).slots, f) + f(a.x) ==
            Sum(s.slots, f) + Sum(Copied(s, a), f) +
            if NextPlace(s, a).Some? then f(Slot(a.x.copy, NextPlace(s, a).value)) else 0
  {
    SlotsAfter(s, a);
    if NextPlace(s, a).Some? {
      var y := Slot(a.x.copy, NextPlace(s, a).value);
      SumReplace(s.slots, f, a.x, y);
      SumUnion(s.slots - multiset{a.x} + multiset{y}, Copied(s, a), f);
    } else {
      SumRemove(s.slots, f, a.x);
    }
  }

  lemma OtherSum(s: Mesh, a: Action, f: Slot -> nat)
    requires Enabled(s, a) && !OnSlot(a)
    ensures Sum(Step(s, a).slots, f) == Sum(s.slots, f) + Sum(Copied(s, a), f)
  {
    assert Step(s, a).slots == s.slots + Copied(s, a);
    SumUnion(s.slots, Copied(s, a), f);
  }
}
