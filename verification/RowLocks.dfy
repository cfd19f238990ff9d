/**
 * The same allocator as interleaved database transactions. A transaction reads the reservation
 * rows without a lock, locks its product rows one at a time (remembering the quantity it saw),
 * decides, and then commits the quantities computed from what it saw, or aborts.
 * The product set is fixed and each order has at most one transaction in flight.
 */
module RowLocks {
  import opened Runs
  import opened Domain
  import opened Allocation

  /** `rows` is what the transaction adds (a claim) or gives back (a release); `seen` what it locked. */
  datatype Phase =
    | Begun
    | Locking(rows: map<int, int>, seen: map<int, int>)
    | Writing(rows: map<int, int>, seen: map<int, int>)

  datatype Txn = Txn(cmd: Command, phase: Phase)

  datatype Answered = Answered(cmd: Command, ok: bool)

  /**
   * `owner[p]` is the order whose transaction locks row `p`; `log` lists the answers given. The
   * commands that were begun and those that were aborted are history.
   */
  datatype System = System(
    store: Store, txns: map<int, Txn>, owner: map<int, int>, log: seq<Answered>,
    begun: multiset<Command>, aborted: multiset<Command>)

  datatype Action =
    | Begin(cmd: Command)
    | Read(order: int)
    | Lock(order: int, product: int)
    | Decide(order: int)
    | Commit(order: int)
    | Abort(order: int)

  function Start(store: Store): System {
    System(store, map[], map[], [], multiset{}, multiset{})
  }

  function Unlock(owner: map<int, int>, o: int): map<int, int> {
    map p | p in owner && owner[p] != o :: owner[p]
  }

  function Finish(s: System, o: int, store: Store, ok: bool): System
    requires o in s.txns
  {
    s.(store := store, txns := s.txns - {o}, owner := Unlock(s.owner, o),
       log := s.log + [Answered(s.txns[o].cmd, ok)])
  }

  predicate AllLocked(available: map<int, int>, rows: map<int, int>, seen: map<int, int>) {
    forall p | p in rows && p in available :: p in seen
  }

  predicate Covered(rows: map<int, int>, seen: map<int, int>) {
    forall p | p in rows :: p in seen && rows[p] <= seen[p]
  }

  /** The rows a commit writes: absolute quantities computed from what was seen under the lock. */
  function Written(available: map<int, int>, seen: map<int, int>, rows: map<int, int>, sign: int): map<int, int> {
    map p | p in available :: if p in seen then seen[p] + sign * Quantity(rows, p) else available[p]
  }

  /** One step of one transaction; a step that is not possible leaves the system as it is. */
  function Apply(s: System, a: Action): System {
    match a
    case Begin(cmd) =>
      if cmd.Stock? || !Admissible(cmd) || cmd.order in s.txns then s
      else s.(txns := s.txns[cmd.order := Txn(cmd, Begun)], begun := s.begun + multiset{cmd})
    case Read(o) =>
      if o !in s.txns || !s.txns[o].phase.Begun? then s
      else
        var cmd := s.txns[o].cmd;
        if cmd.Claim? then
          if o in s.store.held then Finish(s, o, s.store, true)
          else s.(txns := s.txns[o := Txn(cmd, Locking(Wanted(cmd.items), map[]))])
        else
          if o !in s.store.held then Finish(s, o, s.store, false)
          else s.(txns := s.txns[o := Txn(cmd, Locking(s.store.held[o], map[]))])
    case Lock(o, p) =>
      if o !in s.txns || !s.txns[o].phase.Locking? || p !in s.txns[o].phase.rows ||
         p !in s.store.available || p in s.owner then s
      else
        var t := s.txns[o];
        var seen := t.phase.seen[p := s.store.available[p]];
        s.(txns := s.txns[o := Txn(t.cmd, Locking(t.phase.rows, seen))],
           owner := s.owner[p := o])
    case Decide(o) =>
      if o !in s.txns || !s.txns[o].phase.Locking? then s
      else
        var Txn(cmd, Locking(rows, seen)) := s.txns[o];
        if !AllLocked(s.store.available, rows, seen) then s
        else if cmd.Claim? && !Covered(rows, seen) then Finish(s, o, s.store, false)
        else s.(txns := s.txns[o := Txn(cmd, Writing(rows, seen))])
    case Commit(o) =>
      if o !in s.txns || !s.txns[o].phase.Writing? then s
      else
        var Txn(cmd, Writing(rows, seen)) := s.txns[o];
        var held :=
          if !cmd.Claim? then s.store.held - {o}
          else if rows == map[] then s.store.held
          else s.store.held[o := rows];
        var sign := if cmd.Claim? then -1 else 1;
        Finish(s, o, Store(Written(s.store.available, seen, rows, sign), held), true)
    case Abort(o) =>
      if o !in s.txns then s
      else s.(txns := s.txns - {o}, owner := Unlock(s.owner, o), aborted := s.aborted + multiset{s.txns[o].cmd})
  }

  function Exec(s: System, acts: seq<Action>): System {
    Fold(Apply, s, acts)
  }

  function Commands(log: seq<Answered>): seq<Command> {
    seq(|log|, i requires 0 <= i < |log| => log[i].cmd)
  }

  // ----- what every step keeps -----

  /** A lock freezes the quantity its holder saw; the holder's order is not otherwise in flight. */
  predicate TxnOk(s: System, o: int, t: Txn) {
    && !t.cmd.Stock? && t.cmd.order == o && Admissible(t.cmd)
    && (!t.phase.Begun? ==>
          && (t.cmd.Claim? ==> o !in s.store.held && t.phase.rows == Wanted(t.cmd.items))
          && (t.cmd.Free? ==> o in s.store.held && t.phase.rows == s.store.held[o])
          && (forall p | p in t.phase.seen ::
                && p in t.phase.rows && p in s.store.available && p in s.owner && s.owner[p] == o
                && t.phase.seen[p] == s.store.available[p]))
    && (t.phase.Writing? ==>
          && AllLocked(s.store.available, t.phase.rows, t.phase.seen)
          && (t.cmd.Claim? ==> Covered(t.phase.rows, t.phase.seen)))
  }

  predicate LocksOk(s: System) {
    forall o | o in s.txns :: TxnOk(s, o, s.txns[o])
  }

  /** The database and every answer are those of running the answered commands one after another. */
  predicate Serial(s: System, start: Store) {
    && s.store == Run(start, Commands(s.log))
    && (forall i | 0 <= i < |s.log| ::
          Admissible(s.log[i].cmd) && s.log[i].ok == Verdict(start, Commands(s.log), i))
  }

  function InFlight(s: System, c: Command): nat {
    if !c.Stock? && c.order in s.txns && s.txns[c.order].cmd == c then 1 else 0
  }

  predicate Balanced(s: System, c: Command) {
    s.begun[c] == multiset(Commands(s.log))[c] + InFlight(s, c) + s.aborted[c]
  }

  /** Every command begun was answered once, aborted, or is still in flight; nothing else was answered. */
  ghost predicate Accounted(s: System) {
    forall c: Command :: Balanced(s, c)
  }

  lemma FinishBalanced(s: System, o: int, store: Store, ok: bool, c: Command)
    requires Balanced(s, c) && o in s.txns && !s.txns[o].cmd.Stock? && s.txns[o].cmd.order == o
    ensures Balanced(Finish(s, o, store, ok), c)
  {
    assert Commands(Finish(s, o, store, ok).log) == Commands(s.log) + [s.txns[o].cmd];
  }

  lemma AbortBalanced(s: System, o: int, c: Command)
    requires Balanced(s, c) && o in s.txns && !s.txns[o].cmd.Stock? && s.txns[o].cmd.order == o
    ensures Balanced(Apply(s, Abort(o)), c)
  {
  }

  lemma BeginBalanced(s: System, cmd: Command, c: Command)
    requires Balanced(s, c)
    ensures Balanced(Apply(s, Begin(cmd)), c)
  {
  }

  predicate SameWork(s: System, s1: System) {
    && s1.log == s.log && s1.begun == s.begun && s1.aborted == s.aborted && s1.txns.Keys == s.txns.Keys
    && forall o | o in s.txns :: s1.txns[o].cmd == s.txns[o].cmd
  }

  lemma SameWorkBalanced(s: System, s1: System, c: Command)
    requires Balanced(s, c) && SameWork(s, s1)
    ensures Balanced(s1, c)
  {
    assert !c.Stock? && c.order in s.txns ==> s1.txns[c.order].cmd == s.txns[c.order].cmd;
  }

  /** The transaction of `o` has been answered and is gone. */
  predicate FinishedBy(s: System, s1: System, o: int) {
    o in s.txns && s1.log != [] && s1 == Finish(s, o, s1.store, s1.log[|s1.log| - 1].ok)
  }

  lemma ReadFinishes(s: System, o: int)
    ensures SameWork(s, Apply(s, Read(o))) || FinishedBy(s, Apply(s, Read(o)), o)
  {
  }

  lemma DecideFinishes(s: System, o: int)
    ensures SameWork(s, Apply(s, Decide(o))) || FinishedBy(s, Apply(s, Decide(o)), o)
  {
  }

  lemma CommitFinishes(s: System, o: int)
    ensures SameWork(s, Apply(s, Commit(o))) || FinishedBy(s, Apply(s, Commit(o)), o)
  {
  }

  lemma LockFinishesNothing(s: System, o: int, p: int)
    ensures SameWork(s, Apply(s, Lock(o, p)))
  {
  }

  lemma StepFinishes(s: System, a: Action)
    requires !a.Begin? && !a.Abort?
    ensures SameWork(s, Apply(s, a)) || FinishedBy(s, Apply(s, a), a.order)
  {
    match a
    case Read(o) => ReadFinishes(s, o);
    case Lock(o, p) => LockFinishesNothing(s, o, p);
    case Decide(o) => DecideFinishes(s, o);
    case Commit(o) => CommitFinishes(s, o);
  }

  lemma StepAccounted(s: System, a: Action)
    requires LocksOk(s) && Accounted(s)
    ensures Accounted(Apply(s, a))
  {
    var s1 := Apply(s, a);
    forall c: Command ensures Balanced(s1, c) {
      assert Balanced(s, c);
      if a.Begin? {
        BeginBalanced(s, a.cmd, c);
      } else if a.order !in s.txns {
        assert s1 == s;
      } else {
        assert TxnOk(s, a.order, s.txns[a.order]);
        if a.Abort? {
          AbortBalanced(s, a.order, c);
        } else {
          StepFinishes(s, a);
          if SameWork(s, s1) {
            SameWorkBalanced(s, s1, c);
          } else {
            FinishBalanced(s, a.order, s1.store, s1.log[|s1.log| - 1].ok, c);
          }
        }
      }
    }
  }

  lemma FinishSerial(s: System, o: int, store: Store, ok: bool, start: Store)
    requires Serial(s, start) && o in s.txns && Admissible(s.txns[o].cmd)
    requires Do(s.store, s.txns[o].cmd) == Outcome(store, ok)
    ensures Serial(Finish(s, o, store, ok), start)
  {
    var s1 := Finish(s, o, store, ok);
    var cs, cs1 := Commands(s.log), Commands(s1.log);
    assert cs1 == cs + [s.txns[o].cmd];
    assert cs1[..|cs|] == cs;
    forall i | 0 <= i < |s1.log|
      ensures Admissible(s1.log[i].cmd) && s1.log[i].ok == Verdict(start, cs1, i)
    {
      if i < |s.log| {
        VerdictOfPrefix(start, cs, s.txns[o].cmd, i);
      }
    }
  }

  lemma VerdictOfPrefix(start: Store, cs: seq<Command>, c: Command, i: nat)
    requires i < |cs|
    ensures Verdict(start, cs + [c], i) == Verdict(start, cs, i)
  {
    assert (cs + [c])[..i] == cs[..i];
  }

  lemma CommitMatchesSpec(s: System, o: int)
    requires o in s.txns && TxnOk(s, o, s.txns[o]) && s.txns[o].phase.Writing?
    ensures Do(s.store, s.txns[o].cmd) == Outcome(Apply(s, Commit(o)).store, true)
  {
    var Txn(cmd, Writing(rows, seen)) := s.txns[o];
    if cmd.Claim? {
      assert Fits(s.store.available, rows);
      assert Written(s.store.available, seen, rows, -1) == Take(s.store.available, rows);
    } else {
      assert Written(s.store.available, seen, rows, 1) == Give(s.store.available, rows);
    }
  }

  /** Unlocking `o` and committing its rows leaves every other transaction as it was. */
  lemma FinishKeepsLocks(s: System, o: int, store: Store, ok: bool)
    requires LocksOk(s) && o in s.txns
    requires store.available.Keys == s.store.available.Keys
    requires forall p | p in store.available ::
               store.available[p] == s.store.available[p] || (p in s.owner && s.owner[p] == o)
    requires forall o' | o' != o ::
               && (o' in store.held <==> o' in s.store.held)
               && (o' in store.held ==> store.held[o'] == s.store.held[o'])
    ensures LocksOk(Finish(s, o, store, ok))
  {
    var s1 := Finish(s, o, store, ok);
    forall o' | o' in s1.txns ensures TxnOk(s1, o', s1.txns[o']) {
      assert TxnOk(s, o', s.txns[o']);
    }
  }

  function Actor(a: Action): Option<int> {
    match a
    case Begin(Stock(_, _)) => None
    case Begin(cmd) => Some(cmd.order)
    case _ => Some(a.order)
  }

  /** A step that is not a commit leaves the database, another's transaction and its locks alone. */
  lemma OthersUnaffected(s: System, a: Action, o: int)
    requires o in s.txns && Actor(a) != Some(o) && !a.Commit?
    ensures var s1 := Apply(s, a); s1.store == s.store && o in s1.txns && s1.txns[o] == s.txns[o]
    ensures forall p | p in s.owner && s.owner[p] == o :: p in Apply(s, a).owner && Apply(s, a).owner[p] == o
  {
  }

  lemma OtherKeepsLocks(s: System, a: Action, o: int)
    requires o in s.txns && TxnOk(s, o, s.txns[o]) && Actor(a) != Some(o) && !a.Commit?
    ensures var s1 := Apply(s, a); o in s1.txns && s1.txns[o] == s.txns[o] && TxnOk(s1, o, s1.txns[o])
  {
    OthersUnaffected(s, a, o);
    SameLocks(s, Apply(s, a), o);
  }

  lemma SameLocks(s: System, s1: System, o: int)
    requires o in s.txns && TxnOk(s, o, s.txns[o]) && s1.store == s.store && o in s1.txns && s1.txns[o] == s.txns[o]
    requires forall p | p in s.owner && s.owner[p] == o :: p in s1.owner && s1.owner[p] == o
    ensures TxnOk(s1, o, s1.txns[o])
  {
  }

  lemma OwnKeepsLocks(s: System, a: Action, o: int)
    requires LocksOk(s) && Actor(a) == Some(o) && !a.Commit? && o in Apply(s, a).txns
    ensures TxnOk(Apply(s, a), o, Apply(s, a).txns[o])
  {
    if o in s.txns {
      assert TxnOk(s, o, s.txns[o]);
    }
  }

  lemma StepKeepsLocks(s: System, a: Action)
    requires LocksOk(s)
    ensures LocksOk(Apply(s, a))
  {
    var s1 := Apply(s, a);
    if a.Commit? {
      if a.order in s.txns && s.txns[a.order].phase.Writing? {
        assert TxnOk(s, a.order, s.txns[a.order]);
        FinishKeepsLocks(s, a.order, s1.store, true);
      }
    } else {
      forall o | o in s1.txns ensures TxnOk(s1, o, s1.txns[o]) {
        if Actor(a) == Some(o) {
          OwnKeepsLocks(s, a, o);
        } else {
          assert o in s.txns && TxnOk(s, o, s.txns[o]);
          OtherKeepsLocks(s, a, o);
        }
      }
    }
  }

  lemma StepKeepsSerial(s: System, a: Action, start: Store)
    requires LocksOk(s) && Serial(s, start)
    ensures Serial(Apply(s, a), start)
  {
    if !a.Begin? && a.order in s.txns {
      var o := a.order;
      var t := s.txns[o];
      assert TxnOk(s, o, t);
      match a
      case Read(_) =>
        if t.phase.Begun? && t.cmd.Claim? == (o in s.store.held) {
          FinishSerial(s, o, s.store, t.cmd.Claim?, start);
        }
      case Decide(_) =>
        if t.phase.Locking? && AllLocked(s.store.available, t.phase.rows, t.phase.seen)
           && t.cmd.Claim? && !Covered(t.phase.rows, t.phase.seen) {
          FinishSerial(s, o, s.store, false, start);
        }
      case Commit(_) =>
        if t.phase.Writing? {
          CommitMatchesSpec(s, o);
          FinishSerial(s, o, Apply(s, a).store, true, start);
        }
      case _ =>
    }
  }

  // ----- main results -----

  /**
   * Every interleaving ends in the store, and gave the answers, of a serial run in answer order of
   * exactly the commands begun, less those aborted or still in flight.
   */
  lemma {:induction false} Serialisable(start: Store, acts: seq<Action>)
    ensures LocksOk(Exec(Start(start), acts))
    ensures Serial(Exec(Start(start), acts), start)
    ensures Accounted(Exec(Start(start), acts))
  {
    if acts != [] {
      var n := |acts| - 1;
      Serialisable(start, acts[..n]);
      StepKeepsLocks(Exec(Start(start), acts[..n]), acts[n]);
      StepKeepsSerial(Exec(Start(start), acts[..n]), acts[n], start);
      StepAccounted(Exec(Start(start), acts[..n]), acts[n]);
    } else {
      assert Commands([]) == [];
    }
  }

  /** At no moment of any interleaving is a product oversold. */
  lemma NeverOversold(start: Store, acts: seq<Action>)
    requires Sound(start)
    ensures Sound(Exec(Start(start), acts).store)
  {
    Serialisable(start, acts);
    var log := Exec(Start(start), acts).log;
    forall c | c in Commands(log) ensures Admissible(c) {
      var i :| 0 <= i < |log| && log[i].cmd == c;
    }
    RunSound(start, Commands(log));
  }

  /** The serial order respects real time: answers are never retracted, and later ones follow. */
  lemma {:induction false} LogGrows(s: System, acts: seq<Action>)
    ensures s.log <= Exec(s, acts).log
  {
    if acts != [] {
      LogGrows(s, acts[..|acts| - 1]);
    }
  }

  /** A row lock has one holder, and while it is held nobody changes the row. */
  lemma LockIsExclusive(start: Store, acts: seq<Action>, o: int, o': int, p: int)
    requires var s := Exec(Start(start), acts);
             && o in s.txns && !s.txns[o].phase.Begun? && p in s.txns[o].phase.seen
             && o' in s.txns && !s.txns[o'].phase.Begun? && p in s.txns[o'].phase.seen
    ensures o == o'
  {
    Serialisable(start, acts);
    var s := Exec(Start(start), acts);
    assert TxnOk(s, o, s.txns[o]) && TxnOk(s, o', s.txns[o']);
  }
}
