/** Any interleaving of service calls is equivalent to running the committed ones one at a time, in
    commit order. */
module Serialisability {
  import opened Domain
  import opened Spec
  import opened Tables
  import opened Engine
  import opened EngineInvariant
  import opened EngineVisibility
  import opened EngineBuyer
  import opened EngineMover
  import opened EngineMenu

  // ---------- one step ----------

  /** A step either shows the others nothing, or is the commit of one call: the sequential call,
      applied to the tables everybody sees. */
  ghost predicate Atomic(s: State, i: nat, s': State)
    requires i < |s.sessions|
  {
    || (s'.log == s.log && Visible(s') == Visible(s))
    || (s'.log == s.log + [i] && Apply(Visible(s), s.sessions[i].op) == Ok(Visible(s')))
  }

  lemma UnseenIsAtomic(s: State, i: nat, s': State)
    requires Inv(s) && i < |s.sessions| && Unseen(s, i, s')
    ensures Inv(s') && Atomic(s, i, s') && GoodStep(s, i, s')
  {
    InvKeeps(s, i, s');
  }

  lemma CommitIsAtomic(s: State, i: nat, s': State)
    requires Inv(s) && i < |s.sessions| && GoodStep(s, i, s') && s'.log == s.log + [i]
    requires Apply(Visible(s), s.sessions[i].op) == Ok(Visible(s'))
    ensures Inv(s') && Atomic(s, i, s') && GoodStep(s, i, s')
  {
    ApplyKeeps(Visible(s), s.sessions[i].op);
    hide Apply, Visible, WellFormed, GoodStep;
    InvKeeps(s, i, s');
  }

  lemma NotifyStep(s: State, i: nat)
    requires Inv(s) && i < |s.sessions| && s.sessions[i].op.IsOrderOp() && s.sessions[i].pc.Notifying?
    ensures Unseen(s, i, Notify(s, i))
  {
    var t := s.sessions[i];
    var t' := t.(pc := Finished);
    var mid := Put(s, i, t');
    assert Local(t, s.db);
    assert LocalAt(mid, i);
    assert Footprint(t') == Footprint(t) && Pending(t') <= Pending(t);
    ControlStep(s, i, t');
    NotifiedSame(s, i, mid, Notify(s, i));
  }

  lemma SameTablesSameSight(a: State, b: State)
    requires a.db == b.db && a.locks == b.locks && a.sessions == b.sessions
    ensures Visible(a) == Visible(b)
  {
    forall o ensures SeenByAll(a, o) == SeenByAll(b, o) {}
    forall d | d in a.db.dishes ensures DishImage(a, d) == DishImage(b, d) {}
    hide SeenByAll, DishImage;
    OrdersVisible(a, b);
    DishesVisible(a, b);
  }

  /** Two states that differ in the dispatch list alone. */
  ghost predicate SameButNotified(a: State, b: State) {
    a.db == b.db && a.locks == b.locks && a.sessions == b.sessions && a.log == b.log
  }

  lemma NotifiedOwn(s: State, i: nat, a: State, b: State)
    requires i < |s.sessions| && OwnStep(s, i, a) && SameButNotified(a, b)
    ensures OwnStep(s, i, b)
  {
    hide Local;
  }

  lemma NotifiedLocks(s: State, i: nat, a: State, b: State)
    requires i < |s.sessions| == |a.sessions| && LockStep(s, i, a) && SameButNotified(a, b)
    ensures LockStep(s, i, b)
  {
    hide Footprint;
  }

  lemma NotifiedTables(s: State, i: nat, a: State, b: State)
    requires i < |s.sessions| == |a.sessions| && TableStep(s, i, a) && SameButNotified(a, b)
    ensures TableStep(s, i, b)
  {
    hide Pending, RowKept, Unused;
  }

  /** The dispatch list is read by no table and no lock. */
  lemma NotifiedSame(s: State, i: nat, a: State, b: State)
    requires i < |s.sessions| && Unseen(s, i, a) && SameButNotified(a, b)
    ensures Unseen(s, i, b)
  {
    SameTablesSameSight(a, b);
    hide Visible, OwnStep, LockStep, TableStep;
    NotifiedOwn(s, i, a, b);
    NotifiedLocks(s, i, a, b);
    NotifiedTables(s, i, a, b);
  }

  lemma CheckoutCommitStep(s: State, i: nat)
    requires Inv(s) && i < |s.sessions| && s.sessions[i].op.Checkout? && s.sessions[i].pc.Closing?
    ensures Inv(Commit(s, i)) && Atomic(s, i, Commit(s, i)) && GoodStep(s, i, Commit(s, i))
  {
    CheckoutCommits(s, i);
    CommitGood(s, i);
    hide LocksOk, AllLocal, FreshOk, WellFormed, GoodStep, Apply, Visible;
    CommitIsAtomic(s, i, Commit(s, i));
  }

  lemma CheckoutUnseen(s: State, i: nat, s': State)
    requires Inv(s) && i < |s.sessions| && s.sessions[i].op.Checkout? && !s.sessions[i].pc.Closing?
    requires AdvanceCheckout(s, i) == Some(s')
    ensures Unseen(s, i, s')
  {
    hide LocksOk, AllLocal, FreshOk, WellFormed, Unseen;
    match s.sessions[i].pc
    case Start => BeginCheckoutStep(s, i);
    case Scanning => ScanStep(s, i);
    case Locking(_) => LockNextStep(s, i);
    case Selling(line, _) => if line < |s.sessions[i].rows| { SellStep(s, i); } else { InsertStep(s, i); }
    case Notifying => NotifyStep(s, i);
    case _ =>
  }

  lemma CheckoutStep(s: State, i: nat, s': State)
    requires Inv(s) && i < |s.sessions| && s.sessions[i].op.Checkout? && AdvanceCheckout(s, i) == Some(s')
    ensures Inv(s') && Atomic(s, i, s') && GoodStep(s, i, s')
  {
    if s.sessions[i].pc.Closing? {
      assert s' == Commit(s, i);
      hide *;
      CheckoutCommitStep(s, i);
    } else {
      hide *;
      CheckoutUnseen(s, i, s');
      UnseenIsAtomic(s, i, s');
    }
  }

  lemma MoveCommitStep(s: State, i: nat)
    requires Inv(s) && Mover(s, i) && s.sessions[i].pc.Closing?
    ensures Inv(Commit(s, i)) && Atomic(s, i, Commit(s, i)) && GoodStep(s, i, Commit(s, i))
  {
    MoveCommits(s, i);
    CommitGood(s, i);
    hide LocksOk, AllLocal, FreshOk, WellFormed, GoodStep, Apply, Visible;
    CommitIsAtomic(s, i, Commit(s, i));
  }

  lemma MoveUnseen(s: State, i: nat, s': State)
    requires Inv(s) && Mover(s, i) && !s.sessions[i].pc.Closing? && AdvanceMove(s, i) == Some(s')
    ensures Unseen(s, i, s')
  {
    hide LocksOk, AllLocal, FreshOk, WellFormed, Unseen;
    match s.sessions[i].pc
    case Start => LockOrderStep(s, i);
    case Judging => JudgeStep(s, i);
    case Refunding(_) => RefundStep(s, i);
    case Stamping => StampStep(s, i);
    case Notifying => NotifyStep(s, i);
    case _ =>
  }

  lemma MoveStep(s: State, i: nat, s': State)
    requires Inv(s) && Mover(s, i) && AdvanceMove(s, i) == Some(s')
    ensures Inv(s') && Atomic(s, i, s') && GoodStep(s, i, s')
  {
    if s.sessions[i].pc.Closing? {
      assert s' == Commit(s, i);
      hide *;
      MoveCommitStep(s, i);
    } else {
      hide *;
      MoveUnseen(s, i, s');
      UnseenIsAtomic(s, i, s');
    }
  }

  lemma SettleStep(s: State, i: nat)
    requires Inv(s) && Settles(s, i)
    ensures Inv(Settle(s, i)) && Atomic(s, i, Settle(s, i)) && GoodStep(s, i, Settle(s, i))
  {
    var op := s.sessions[i].op;
    match Statement(s.db, op)
    case Err(error) =>
      RejectStep(s, i, error);
      UnseenIsAtomic(s, i, Settle(s, i));
    case Ok(_) =>
      WriteCommits(s, i);
      SettleGood(s, i);
      assert LocalAt(s, i);
      SettleShape(s, i);
      hide LocksOk, AllLocal, FreshOk, WellFormed, GoodStep, Apply, Visible, Settles, Settle;
      CommitIsAtomic(s, i, Settle(s, i));
  }

  lemma WriteStep(s: State, i: nat, s': State)
    requires Inv(s) && Partner(s, i) && s.sessions[i].pc.Writing? && Write(s, i) == Some(s')
    ensures Inv(s') && Atomic(s, i, s') && GoodStep(s, i, s')
  {
    if Claims(s, i) {
      hide *;
      ClaimStep(s, i);
      UnseenIsAtomic(s, i, s');
    } else {
      assert Settles(s, i) && s' == Settle(s, i);
      hide *;
      SettleStep(s, i);
    }
  }

  lemma CheckStep(s: State, i: nat, s': State)
    requires Inv(s) && Partner(s, i) && s.sessions[i].pc.Checking? && Check(s, i) == Some(s')
    ensures Inv(s') && Atomic(s, i, s') && GoodStep(s, i, s')
  {
    var t := s.sessions[i];
    assert Local(t, s.db);
    assert Target(t.op).Some? && Target(t.op).value in Footprint(t);
    assert Settles(s, i) && s' == Settle(s, i);
    hide *;
    SettleStep(s, i);
  }

  lemma MenuStep(s: State, i: nat, s': State)
    requires Inv(s) && Partner(s, i) && AdvanceMenu(s, i) == Some(s')
    ensures Inv(s') && Atomic(s, i, s') && GoodStep(s, i, s')
  {
    match s.sessions[i].pc
    case Start => BeginMenuStep(s, i); UnseenIsAtomic(s, i, s');
    case Vetting => VetStep(s, i); UnseenIsAtomic(s, i, s');
    case Writing => WriteStep(s, i, s');
    case Checking => CheckStep(s, i, s');
    case _ =>
  }

  /** Every step of every call keeps the invariant and is atomic; interrupts included. */
  lemma StepIsAtomic(s: State, i: nat, s': State)
    requires Inv(s) && Steps(s, i, s')
    ensures Inv(s') && Atomic(s, i, s') && GoodStep(s, i, s')
  {
    if Advance(s, i) == Some(s') {
      if s.sessions[i].op.Checkout? {
        CheckoutStep(s, i, s');
      } else if s.sessions[i].op.IsOrderOp() {
        MoveStep(s, i, s');
      } else {
        MenuStep(s, i, s');
      }
    } else {
      RejectStep(s, i, Interrupted);
      UnseenIsAtomic(s, i, s');
    }
  }

  // ---------- the commit log ----------

  ghost predicate NoRepeats(log: seq<nat>) {
    forall j, k :: 0 <= j < k < |log| ==> log[j] != log[k]
  }

  /** The log names exactly the committed sessions, each once. */
  ghost predicate LogOk(s: State) {
    && NoRepeats(s.log)
    && (forall k :: 0 <= k < |s.log| ==> s.log[k] < |s.sessions| && s.sessions[s.log[k]].Committed())
    && (forall i :: 0 <= i < |s.sessions| && s.sessions[i].Committed() ==> i in s.log)
  }

  /** A step changes one session and keeps its request; its commit and its log entry go together. */
  ghost predicate LogStep(s: State, i: nat, s': State)
    requires i < |s.sessions|
  {
    && |s'.sessions| == |s.sessions|
    && s'.sessions == s.sessions[i := s'.sessions[i]]
    && s'.sessions[i].op == s.sessions[i].op
    && (if s.sessions[i].Committed() then s'.log == s.log && s'.sessions[i].Committed()
        else s'.log == if s'.sessions[i].Committed() then s.log + [i] else s.log)
  }

  lemma StepLogs(s: State, i: nat, s': State)
    requires Steps(s, i, s')
    ensures LogStep(s, i, s')
  {
    var t := s.sessions[i];
    if Advance(s, i) == Some(s') {
      if t.op.Checkout? {
        CheckoutLogs(s, i, s');
      } else if t.op.IsOrderOp() {
        MoveLogs(s, i, s');
      } else {
        MenuLogs(s, i, s');
      }
    }
  }

  lemma CheckoutLogs(s: State, i: nat, s': State)
    requires i < |s.sessions| && s.sessions[i].op.Checkout? && AdvanceCheckout(s, i) == Some(s')
    ensures LogStep(s, i, s')
  {
    hide Undone, Unlocked, Wanted, LineFault, ReceiptSoFar, EntryFault, Wrap64;
  }

  lemma MoveLogs(s: State, i: nat, s': State)
    requires Mover(s, i) && AdvanceMove(s, i) == Some(s')
    ensures LogStep(s, i, s')
  {
    hide Undone, Unlocked, VerdictOn, Stamp;
  }

  lemma MenuLogs(s: State, i: nat, s': State)
    requires Partner(s, i) && AdvanceMenu(s, i) == Some(s')
    ensures LogStep(s, i, s')
  {
    hide Undone, Unlocked, MenuFault, Statement, CategoryOf;
  }

  lemma LogKeeps(s: State, i: nat, s': State)
    requires LogOk(s) && i < |s.sessions| && LogStep(s, i, s')
    ensures LogOk(s')
  {
    if s'.log != s.log {
      forall k | 0 <= k < |s.log| ensures s.log[k] != i {
        assert s.sessions[s.log[k]].Committed();
      }
    }
    forall j | 0 <= j < |s'.sessions| && s'.sessions[j].Committed() ensures j in s'.log {
      if j != i {
        assert s.sessions[j].Committed();
      }
    }
  }

  // ---------- runs ----------

  function NewIds(op: Op): set<Id> {
    match op
    case Checkout(_, orderId, _) => {orderId}
    case AddCategory(_, category, _) => {category}
    case AddItem(item, _) => {item}
    case _ => {}
  }

  /** A good database, and generated identifiers that are fresh and unique. */
  ghost predicate Admissible(db: Db, ops: seq<Op>) {
    && WellFormed(db)
    && (forall i, x :: 0 <= i < |ops| && x in NewIds(ops[i]) ==> Unused(db, x))
    && (forall i, j :: 0 <= i < j < |ops| ==> NewIds(ops[i]) !! NewIds(ops[j]))
  }

  /** A run goes on by any step from its last state. */
  lemma RunGoesOn(db: Db, ops: seq<Op>, run: seq<State>, i: nat, s': State)
    requires IsRun(db, ops, run) && Steps(run[|run| - 1], i, s')
    ensures IsRun(db, ops, run + [s'])
  {
    assert Next(run[|run| - 1], s');
    hide Steps, Init;
  }

  /** The tables everybody sees are the serial replay of the log. */
  ghost predicate Serial(db: Db, ops: seq<Op>, s: State) {
    && |s.sessions| == |ops|
    && (forall i :: 0 <= i < |ops| ==> s.sessions[i].op == ops[i])
    && LogOk(s)
    && Replay(db, ops, s.log) == Some(Visible(s))
  }

  lemma InitGood(db: Db, ops: seq<Op>)
    requires Admissible(db, ops)
    ensures Inv(Init(db, ops)) && Serial(db, ops, Init(db, ops))
  {
    var s := Init(db, ops);
    InitVisible(db, ops);
    forall i | 0 <= i < |ops| ensures s.sessions[i] == NewSession(ops[i]) && Footprint(s.sessions[i]) == {} {}
    forall i | 0 <= i < |ops| ensures Local(s.sessions[i], s.db) && Pending(s.sessions[i]) == NewIds(ops[i]) {}
    hide Local, Footprint, Pending, NewIds, WellFormed;
  }

  /** Without locks, everybody sees the tables in place. */
  lemma UnlockedVisible(s: State)
    requires s.locks == map[]
    ensures Visible(s) == s.db
  {
    assert Visible(s).dishes == s.db.dishes;
    assert Visible(s).orders == s.db.orders;
  }

  lemma InitVisible(db: Db, ops: seq<Op>)
    ensures Visible(Init(db, ops)) == db
  {
    UnlockedVisible(Init(db, ops));
  }

  /** The replay of a log with one call more. */
  lemma ReplayExtends(db: Db, ops: seq<Op>, log: seq<nat>, i: nat, before: Db, after: Db)
    requires forall k :: 0 <= k < |log| ==> log[k] < |ops|
    requires i < |ops| && Replay(db, ops, log) == Some(before) && Apply(before, ops[i]) == Ok(after)
    ensures Replay(db, ops, log + [i]) == Some(after)
  {
    assert (log + [i])[..|log|] == log;
    hide Apply;
  }

  lemma SerialKeeps(db: Db, ops: seq<Op>, s: State, i: nat, s': State)
    requires Serial(db, ops, s) && i < |s.sessions| && Atomic(s, i, s') && LogStep(s, i, s')
    ensures Serial(db, ops, s')
  {
    LogKeeps(s, i, s');
    assert s.sessions[i].op == ops[i];
    assert forall k :: 0 <= k < |s.log| ==> s.log[k] < |ops|;
    assert LogOk(s') && |s'.sessions| == |ops|;
    assert forall j :: 0 <= j < |ops| ==> s'.sessions[j].op == ops[j];
    hide Visible, Apply, LogOk, Replay;
    if s'.log != s.log {
      ReplayExtends(db, ops, s.log, i, Visible(s), Visible(s'));
    }
  }

  /** A run is a shorter run and one more step. */
  lemma RunPrefix(db: Db, ops: seq<Op>, run: seq<State>) returns (i: nat)
    requires IsRun(db, ops, run) && |run| > 1
    ensures IsRun(db, ops, run[..|run| - 1]) && run[..|run| - 1][|run| - 2] == run[|run| - 2]
    ensures Steps(run[|run| - 2], i, run[|run| - 1])
  {
    var n := |run| - 1;
    assert Next(run[n - 1], run[n]);
    hide Steps, Init;
    i :| Steps(run[n - 1], i, run[n]);
  }

  lemma {:induction false} RunGood(db: Db, ops: seq<Op>, run: seq<State>)
    requires Admissible(db, ops) && IsRun(db, ops, run)
    ensures Inv(run[|run| - 1]) && Serial(db, ops, run[|run| - 1])
  {
    assert run != [] && run[0] == Init(db, ops);
    hide *;
    if |run| == 1 {
      InitGood(db, ops);
    } else {
      var n := |run| - 1;
      var i := RunPrefix(db, ops, run);
      RunGood(db, ops, run[..n]);
      GoodStepOfRun(db, ops, run[n - 1], i, run[n]);
    }
  }

  lemma GoodStepOfRun(db: Db, ops: seq<Op>, s: State, i: nat, s': State)
    requires Inv(s) && Serial(db, ops, s) && Steps(s, i, s')
    ensures Inv(s') && Serial(db, ops, s')
  {
    StepLogs(s, i, s');
    StepIsAtomic(s, i, s');
    hide Inv, Advance, Interrupt, Atomic, LogStep, Serial;
    SerialKeeps(db, ops, s, i, s');
  }

  ghost predicate Quiet(s: State) {
    forall i :: 0 <= i < |s.sessions| ==> s.sessions[i].Over()
  }

  lemma HoldersAlive(s: State)
    requires LocksOk(s)
    ensures forall r | r in s.locks :: s.locks[r] < |s.sessions| && !s.sessions[s.locks[r]].Over()
  {
  }

  lemma QuietVisible(s: State)
    requires Inv(s) && Quiet(s)
    ensures Visible(s) == s.db && s.locks == map[]
  {
    HoldersAlive(s);
    assert s.locks.Keys == {};
    assert Visible(s).dishes == s.db.dishes;
    assert Visible(s).orders == s.db.orders;
  }

  /** Serialisability. At every moment of every run, whatever the interleaving, lock waits, rejections
      and interrupts: what everybody sees is the result of running the committed calls one at a time
      in commit order, each accepted; the log names each committed call once and nothing else; and
      once no call is in flight the tables themselves are that result, with no lock left behind. */
  lemma Serialisable(db: Db, ops: seq<Op>, run: seq<State>)
    requires Admissible(db, ops) && IsRun(db, ops, run)
    ensures
      var s := run[|run| - 1];
      && |s.sessions| == |ops|
      && (forall k :: 0 <= k < |s.log| ==> s.log[k] < |ops|)
      && Replay(db, ops, s.log) == Some(Visible(s))
      && NoRepeats(s.log)
      && (forall i :: 0 <= i < |ops| ==> (i in s.log <==> s.sessions[i].Committed()))
      && (Quiet(s) ==> s.db == Visible(s) && s.locks == map[])
  {
    RunGood(db, ops, run);
    var s := run[|run| - 1];
    if Quiet(s) {
      QuietVisible(s);
    }
  }
}
