/** No endless run: every step uses up part of a budget fixed by the requests. */
module Progress {
  import opened Domain
  import opened Spec
  import opened Tables
  import opened Engine
  import opened EngineInvariant
  import opened EngineVisibility
  import opened EngineBuyer
  import opened EngineMover
  import opened EngineMenu
  import opened Serialisability

  // ---------- a budget of steps ----------

  /** Statements a call may still execute, given that receipts have at most `cap` lines. */
  function StepsLeft(t: Session, cap: nat): int {
    if t.op.Checkout? then
      match t.pc
      case Start => 2 * cap + 6
      case Scanning => 2 * cap + 5
      case Locking(todo) => |todo| + cap + 4
      case Selling(line, _) => |t.rows| - line + 3
      case Closing => 2
      case Notifying => 1
      case _ => 0
    else if t.op.IsOrderOp() then
      match t.pc
      case Start => cap + 6
      case Judging => cap + 5
      case Refunding(line) => (if t.order.Some? then |t.order.value.items| else 0) - line + 4
      case Stamping => 3
      case Closing => 2
      case Notifying => 1
      case _ => 0
    else
      match t.pc
      case Start => 4
      case Vetting => 3
      case Writing => 2
      case Checking => 1
      case _ => 0
  }

  /** Receipts and requests have at most `cap` lines. */
  ghost predicate ReceiptsWithin(db: Db, cap: nat) {
    forall o | o in db.orders :: |db.orders[o].items| <= cap
  }

  ghost predicate SessionWithin(t: Session, cap: nat) {
    && (t.op.Checkout? ==> |t.op.input.lines| <= cap)
    && (t.order.Some? ==> |t.order.value.items| <= cap)
  }

  ghost predicate Within(s: State, cap: nat) {
    ReceiptsWithin(s.db, cap) && forall i :: 0 <= i < |s.sessions| ==> SessionWithin(s.sessions[i], cap)
  }

  lemma WantedSize(lines: seq<Line>)
    ensures |Wanted(lines)| <= |lines|
  {
    if lines != [] {
      var n := |lines| - 1;
      WantedSize(lines[..n]);
      var want := Wanted(lines[..n]);
      assert Wanted(lines).Keys <= want.Keys + {lines[n].dish};
      assert |want.Keys + {lines[n].dish}| <= |want.Keys| + 1;
    }
  }

  /** Rows locked and still to lock are distinct wanted dishes. */
  lemma RowsWithin(t: Session, todo: seq<Id>, dishes: map<Id, Dish>)
    requires t.op.Checkout? && LockedSoFar(t, todo, dishes)
    ensures |t.rows| + |todo| <= |t.op.input.lines|
  {
    var all := Ids(t.rows) + todo;
    AscendingSize(all);
    WantedSize(t.op.input.lines);
    assert Elements(all) <= WantOf(t).Keys;
    SubsetSize(Elements(all), WantOf(t).Keys);
  }

  lemma SubsetSize(a: set<Id>, b: set<Id>)
    requires a <= b
    ensures |a| <= |b|
  {
    assert |b - a| == |b| - |a|;
  }

  lemma SoldWithin(t: Session, line: nat, dishes: map<Id, Dish>)
    requires t.op.Checkout? && SoldSoFar(t, line, dishes)
    ensures line <= |t.rows| <= |t.op.input.lines|
  {
    AscendingIs(WantOf(t).Keys);
    WantedSize(t.op.input.lines);
    assert |Ids(t.rows)| == |t.rows|;
  }

  /** A session's step budget never exceeds what it starts with, and is positive until it is over. */
  lemma BudgetRange(s: State, i: nat, cap: nat)
    requires LocalAt(s, i) && Within(s, cap) && i < |s.sessions|
    ensures 0 <= StepsLeft(s.sessions[i], cap) <= 2 * cap + 6
  {
    var t := s.sessions[i];
    assert Local(t, s.db);
    assert SessionWithin(t, cap);
    if t.op.Checkout? && t.pc.Locking? {
      RowsWithin(t, t.pc.todo, s.db.dishes);
    }
    if t.op.Checkout? && t.pc.Selling? {
      SoldWithin(t, t.pc.line, s.db.dishes);
    }
    hide LockedSoFar, SoldSoFar, RefundedSoFar;
  }

  ghost predicate Spends(s: State, i: nat, s': State, cap: nat)
    requires i < |s.sessions|
  {
    i < |s'.sessions| && StepsLeft(s'.sessions[i], cap) < StepsLeft(s.sessions[i], cap)
  }

  lemma ScanSpends(s: State, i: nat, cap: nat)
    requires Within(s, cap) && i < |s.sessions| && s.sessions[i].op.Checkout? && s.sessions[i].pc.Scanning?
    ensures Spends(s, i, Scan(s, i), cap)
  {
    var t := s.sessions[i];
    assert SessionWithin(t, cap);
    var found := WantOf(t).Keys * s.db.dishes.Keys;
    AscendingIs(found);
    SubsetSize(found, WantOf(t).Keys);
    WantedSize(t.op.input.lines);
  }

  lemma LockSpends(s: State, i: nat, cap: nat)
    requires LocalAt(s, i) && Within(s, cap) && i < |s.sessions| && s.sessions[i].op.Checkout?
    requires s.sessions[i].pc.Locking? && LockNext(s, i).Some?
    ensures Spends(s, i, LockNext(s, i).value, cap)
  {
    var t := s.sessions[i];
    assert SessionWithin(t, cap);
    assert |t.rows| + |t.pc.todo| <= cap by {
      assert Local(t, s.db);
      RowsWithin(t, t.pc.todo, s.db.dishes);
    }
    hide LocalAt, Within, Undone, Unlocked;
  }

  lemma SellSpends(s: State, i: nat, cap: nat)
    requires LocalAt(s, i) && i < |s.sessions| && s.sessions[i].op.Checkout? && s.sessions[i].pc.Selling?
    ensures Spends(s, i, AdvanceCheckout(s, i).value, cap)
  {
    var t := s.sessions[i];
    assert t.pc.line <= |t.rows| by { assert Local(t, s.db); }
    hide LocalAt, Undone, Unlocked, ReceiptSoFar, Wanted, LineFault, Wrap64, LockNext, Scan, NewOrder;
  }

  lemma BuyerSpends(s: State, i: nat, s': State, cap: nat)
    requires LocalAt(s, i) && Within(s, cap) && i < |s.sessions| && s.sessions[i].op.Checkout?
    requires AdvanceCheckout(s, i) == Some(s')
    ensures Spends(s, i, s', cap)
  {
    var t := s.sessions[i];
    if t.pc.Scanning? {
      ScanSpends(s, i, cap);
    } else if t.pc.Locking? {
      LockSpends(s, i, cap);
    } else if t.pc.Selling? {
      SellSpends(s, i, cap);
    } else {
      hide LocalAt, Within, Undone, Unlocked, EntryFault, Sell, Insert, LockNext, Scan;
    }
  }

  lemma MoverSpends(s: State, i: nat, s': State, cap: nat)
    requires LocalAt(s, i) && Within(s, cap) && Mover(s, i) && AdvanceMove(s, i) == Some(s')
    ensures Spends(s, i, s', cap)
  {
    var t := s.sessions[i];
    assert Local(t, s.db);
    assert SessionWithin(t, cap);
    if t.pc.Start? {
      LockOrderSpends(s, i, cap);
    } else if t.pc.Refunding? {
      hide Local, Within, Undone, Unlocked, LockOrder, Judge, StampOrder, Commit, Notify;
    } else {
      hide Undone, Unlocked, VerdictOn, Local, LockOrder, Refund, Within, Stamp;
    }
  }

  lemma LockOrderSpends(s: State, i: nat, cap: nat)
    requires Mover(s, i) && s.sessions[i].pc.Start? && LockOrder(s, i).Some?
    ensures Spends(s, i, LockOrder(s, i).value, cap)
  {
    hide Undone, Unlocked, Invisible;
  }

  lemma PartnerSpends(s: State, i: nat, s': State, cap: nat)
    requires Partner(s, i) && AdvanceMenu(s, i) == Some(s')
    ensures Spends(s, i, s', cap)
  {
    hide Undone, Unlocked, Statement, MenuFault;
  }

  lemma RejectSpends(s: State, i: nat, cap: nat)
    requires LocalAt(s, i) && Within(s, cap) && i < |s.sessions|
    requires !s.sessions[i].Committed() && !s.sessions[i].Over()
    ensures Spends(s, i, Reject(s, i, Interrupted), cap)
  {
    var t := s.sessions[i];
    assert Local(t, s.db);
    if t.op.Checkout? && t.pc.Selling? {
      SoldWithin(t, t.pc.line, s.db.dishes);
    }
    hide LockedSoFar, SoldSoFar;
  }

  /** Every step, interrupts included, uses up budget of the session that makes it. */
  lemma StepSpends(s: State, i: nat, s': State, cap: nat)
    requires Inv(s) && Within(s, cap) && Steps(s, i, s')
    ensures Spends(s, i, s', cap)
  {
    if Advance(s, i) == Some(s') {
      if s.sessions[i].op.Checkout? {
        BuyerSpends(s, i, s', cap);
      } else if s.sessions[i].op.IsOrderOp() {
        MoverSpends(s, i, s', cap);
      } else {
        PartnerSpends(s, i, s', cap);
      }
    } else {
      RejectSpends(s, i, cap);
    }
  }

  // ---------- the budget of a whole run ----------

  function Budget(sessions: seq<Session>, cap: nat): int {
    if sessions == [] then 0
    else
      var n := |sessions| - 1;
      Budget(sessions[..n], cap) + StepsLeft(sessions[n], cap)
  }

  lemma {:induction false} BudgetUpdate(sessions: seq<Session>, i: nat, t: Session, cap: nat)
    requires i < |sessions|
    ensures Budget(sessions[i := t], cap) == Budget(sessions, cap) - StepsLeft(sessions[i], cap) + StepsLeft(t, cap)
  {
    var n := |sessions| - 1;
    if i == n {
      assert sessions[i := t][..n] == sessions[..n];
    } else {
      assert sessions[i := t][..n] == sessions[..n][i := t];
      BudgetUpdate(sessions[..n], i, t, cap);
    }
  }

  lemma {:induction false} BudgetBound(sessions: seq<Session>, cap: nat)
    requires forall i :: 0 <= i < |sessions| ==> 0 <= StepsLeft(sessions[i], cap) <= 2 * cap + 6
    ensures 0 <= Budget(sessions, cap) <= |sessions| * (2 * cap + 6)
  {
    if sessions != [] {
      var n := |sessions| - 1;
      BudgetBound(sessions[..n], cap);
      assert |sessions| * (2 * cap + 6) == n * (2 * cap + 6) + (2 * cap + 6);
    }
  }

  // ---------- receipts stay within the cap ----------

  /** Orders only gain rows within the cap, and keep the receipts they have. */
  ghost predicate ReceiptsKept(db: Db, after: Db, cap: nat) {
    forall o | o in after.orders ::
      |after.orders[o].items| <= cap || (o in db.orders && after.orders[o].items == db.orders[o].items)
  }

  lemma RejectReceipts(s: State, i: nat, error: Error, cap: nat)
    requires LocalAt(s, i) && i < |s.sessions|
    ensures ReceiptsKept(s.db, Reject(s, i, error).db, cap)
    ensures Reject(s, i, error).sessions[i].order == s.sessions[i].order
  {
    LocalBacked(s, i);
  }

  lemma RejectedReceipts(s: State, i: nat, cap: nat)
    requires LocalAt(s, i) && i < |s.sessions|
    ensures forall error ::
              ReceiptsKept(s.db, Reject(s, i, error).db, cap)
              && Reject(s, i, error).sessions[i].order == s.sessions[i].order
  {
    forall error
      ensures ReceiptsKept(s.db, Reject(s, i, error).db, cap)
              && Reject(s, i, error).sessions[i].order == s.sessions[i].order
    {
      RejectReceipts(s, i, error, cap);
    }
  }

  lemma InsertReceipts(s: State, i: nat, cap: nat)
    requires LocalAt(s, i) && Within(s, cap) && i < |s.sessions| && s.sessions[i].op.Checkout?
    requires s.sessions[i].pc.Selling? && s.sessions[i].pc.line >= |s.sessions[i].rows|
    ensures ReceiptsKept(s.db, Insert(s, i).db, cap)
    ensures Insert(s, i).sessions[i].order == s.sessions[i].order
  {
    var t := s.sessions[i];
    assert SessionWithin(t, cap);
    SellerDone(s, i);
    SoldWithin(t, |t.rows|, s.db.dishes);
    assert |ReceiptSoFar(t)| == |t.rows|;
    RejectedReceipts(s, i, cap);
    hide LocalAt, Within, Reject, ReceiptSoFar, Insertable, SoldSoFar;
  }

  lemma SellReceipts(s: State, i: nat, cap: nat)
    requires LocalAt(s, i) && Within(s, cap) && i < |s.sessions| && s.sessions[i].op.Checkout?
    requires s.sessions[i].pc.Selling? && s.sessions[i].pc.line < |s.sessions[i].rows|
    ensures ReceiptsKept(s.db, Sell(s, i).db, cap)
    ensures Sell(s, i).sessions[i].order == s.sessions[i].order
  {
    RejectedReceipts(s, i, cap);
    hide LocalAt, Reject, Wanted, LineFault, Wrap64;
  }

  lemma LockingReceipts(s: State, i: nat, cap: nat)
    requires LocalAt(s, i) && Within(s, cap) && i < |s.sessions| && s.sessions[i].op.Checkout?
    requires s.sessions[i].pc.Locking? && LockNext(s, i).Some?
    ensures ReceiptsKept(s.db, LockNext(s, i).value.db, cap)
    ensures i < |LockNext(s, i).value.sessions| && LockNext(s, i).value.sessions[i].order == s.sessions[i].order
  {
    RejectReceipts(s, i, MenuItemNotFound, cap);
    assert forall o | o in s.db.orders :: |s.db.orders[o].items| <= cap;
    hide LocalAt, Within, Reject;
  }

  lemma ControlReceipts(s: State, i: nat, s': State, cap: nat)
    requires LocalAt(s, i) && Within(s, cap) && i < |s.sessions| && s.sessions[i].op.Checkout?
    requires !s.sessions[i].pc.Selling? && !s.sessions[i].pc.Locking? && AdvanceCheckout(s, i) == Some(s')
    ensures ReceiptsKept(s.db, s'.db, cap)
    ensures i < |s'.sessions| && s'.sessions[i].order == s.sessions[i].order
  {
    RejectedReceipts(s, i, cap);
    assert forall o | o in s.db.orders :: |s.db.orders[o].items| <= cap;
    hide LocalAt, Within, Reject, EntryFault, Insert, Sell, LockNext, Wanted, Unlocked, Ascending;
  }

  lemma BuyerReceipts(s: State, i: nat, s': State, cap: nat)
    requires LocalAt(s, i) && Within(s, cap) && i < |s.sessions| && s.sessions[i].op.Checkout?
    requires AdvanceCheckout(s, i) == Some(s')
    ensures ReceiptsKept(s.db, s'.db, cap)
    ensures i < |s'.sessions| && s'.sessions[i].order == s.sessions[i].order
  {
    var t := s.sessions[i];
    if t.pc.Selling? {
      if t.pc.line < |t.rows| {
        SellReceipts(s, i, cap);
      } else {
        InsertReceipts(s, i, cap);
      }
    } else if t.pc.Locking? {
      LockingReceipts(s, i, cap);
    } else {
      ControlReceipts(s, i, s', cap);
    }
  }

  /** The session's own part of keeping receipts within the cap. */
  ghost predicate OrdersWithin(s: State, i: nat, s': State, cap: nat) {
    && ReceiptsKept(s.db, s'.db, cap)
    && i < |s'.sessions| && SessionWithin(s'.sessions[i], cap)
  }

  lemma LockReceipts(s: State, i: nat, cap: nat)
    requires LocalAt(s, i) && Within(s, cap) && Mover(s, i) && LockOrder(s, i).Some?
    ensures OrdersWithin(s, i, LockOrder(s, i).value, cap)
  {
    var t := s.sessions[i];
    assert SessionWithin(t, cap);
    assert OrderIdOf(t.op) in s.db.orders ==> |s.db.orders[OrderIdOf(t.op)].items| <= cap;
    RejectedReceipts(s, i, cap);
    hide LocalAt, Reject, Within, Invisible, Free, OrderIdOf;
  }

  lemma RefundReceipts(s: State, i: nat, cap: nat)
    requires LocalAt(s, i) && Within(s, cap) && Mover(s, i) && s.sessions[i].pc.Refunding?
    requires s.sessions[i].order.Some? && Refund(s, i).Some?
    ensures OrdersWithin(s, i, Refund(s, i).value, cap)
  {
    assert SessionWithin(s.sessions[i], cap);
    RejectedReceipts(s, i, cap);
    hide LocalAt, Reject, Within, Free;
  }

  lemma StampReceipts(s: State, i: nat, cap: nat)
    requires Within(s, cap) && Mover(s, i) && s.sessions[i].order.Some?
    ensures OrdersWithin(s, i, StampOrder(s, i), cap)
  {
    assert SessionWithin(s.sessions[i], cap);
  }

  lemma MoverReceipts(s: State, i: nat, s': State, cap: nat)
    requires LocalAt(s, i) && Within(s, cap) && Mover(s, i) && AdvanceMove(s, i) == Some(s')
    ensures OrdersWithin(s, i, s', cap)
  {
    var t := s.sessions[i];
    assert SessionWithin(t, cap);
    if t.pc.Start? {
      LockReceipts(s, i, cap);
    } else if t.pc.Refunding? {
      RefundReceipts(s, i, cap);
    } else if t.pc.Stamping? {
      StampReceipts(s, i, cap);
    } else {
      RejectedReceipts(s, i, cap);
      hide LocalAt, Reject, VerdictOn, Within, OrderIdOf, LockOrder, Refund, Unlocked, StampOrder;
    }
  }

  lemma SettleReceipts(s: State, i: nat, cap: nat)
    requires LocalAt(s, i) && Partner(s, i)
    ensures ReceiptsKept(s.db, Settle(s, i).db, cap) && Settle(s, i).sessions[i].order == s.sessions[i].order
  {
    RejectedReceipts(s, i, cap);
    if Statement(s.db, s.sessions[i].op).Ok? {
      StatementEffect(s.db, s.sessions[i].op);
    }
    hide LocalAt, Reject, Unlocked, Statement;
  }

  lemma PartnerReceipts(s: State, i: nat, s': State, cap: nat)
    requires LocalAt(s, i) && Partner(s, i) && AdvanceMenu(s, i) == Some(s')
    ensures ReceiptsKept(s.db, s'.db, cap)
    ensures i < |s'.sessions| && s'.sessions[i].order == s.sessions[i].order
  {
    RejectedReceipts(s, i, cap);
    SettleReceipts(s, i, cap);
    assert |Settle(s, i).sessions| == |s.sessions|;
    hide LocalAt, Reject, Settle, MenuFault, Barred, ChecksLater;
  }

  lemma WithinKeeps(s: State, i: nat, s': State, cap: nat)
    requires Inv(s) && Within(s, cap) && Steps(s, i, s')
    ensures Within(s', cap)
  {
    StepLogs(s, i, s');
    assert SessionWithin(s.sessions[i], cap);
    if Advance(s, i) == Some(s') {
      if s.sessions[i].op.Checkout? {
        BuyerReceipts(s, i, s', cap);
      } else if s.sessions[i].op.IsOrderOp() {
        MoverReceipts(s, i, s', cap);
      } else {
        PartnerReceipts(s, i, s', cap);
      }
    } else {
      RejectReceipts(s, i, Interrupted, cap);
    }
    hide Advance, Interrupt, Steps, Inv;
    assert SessionWithin(s'.sessions[i], cap);
  }

  // ---------- termination ----------

  /** No request and no stored receipt has more than `cap` lines. */
  ghost predicate Capped(db: Db, ops: seq<Op>, cap: nat) {
    && ReceiptsWithin(db, cap)
    && forall i :: 0 <= i < |ops| && ops[i].Checkout? ==> |ops[i].input.lines| <= cap
  }

  lemma StepBudget(s: State, i: nat, s': State, cap: nat)
    requires Inv(s) && Within(s, cap) && Steps(s, i, s')
    ensures Budget(s'.sessions, cap) < Budget(s.sessions, cap) && Within(s', cap)
  {
    StepLogs(s, i, s');
    StepSpends(s, i, s', cap);
    WithinKeeps(s, i, s', cap);
    BudgetUpdate(s.sessions, i, s'.sessions[i], cap);
    hide Inv, Within, Steps, StepsLeft;
  }

  lemma {:induction false} RunBudget(db: Db, ops: seq<Op>, run: seq<State>, cap: nat)
    requires Admissible(db, ops) && Capped(db, ops, cap) && IsRun(db, ops, run)
    ensures var s := run[|run| - 1];
            && Within(s, cap)
            && |run| - 1 + Budget(s.sessions, cap) <= Budget(Init(db, ops).sessions, cap)
  {
    assert run != [] && run[0] == Init(db, ops);
    if |run| == 1 {
      InitWithin(db, ops, cap);
    } else {
      hide *;
      var n := |run| - 1;
      var i := RunPrefix(db, ops, run);
      RunBudget(db, ops, run[..n], cap);
      RunGood(db, ops, run[..n]);
      StepBudget(run[n - 1], i, run[n], cap);
    }
  }

  lemma InitWithin(db: Db, ops: seq<Op>, cap: nat)
    requires Capped(db, ops, cap)
    ensures Within(Init(db, ops), cap)
  {
  }

  lemma AllRanges(s: State, cap: nat)
    requires AllLocal(s) && Within(s, cap)
    ensures 0 <= Budget(s.sessions, cap) <= |s.sessions| * (2 * cap + 6)
  {
    forall i | 0 <= i < |s.sessions| ensures 0 <= StepsLeft(s.sessions[i], cap) <= 2 * cap + 6 {
      BudgetRange(s, i, cap);
    }
    hide Within, AllLocal;
    BudgetBound(s.sessions, cap);
  }

  lemma InitBudget(db: Db, ops: seq<Op>, cap: nat)
    requires Admissible(db, ops) && Capped(db, ops, cap)
    ensures Budget(Init(db, ops).sessions, cap) <= |ops| * (2 * cap + 6)
  {
    var s := Init(db, ops);
    InitGood(db, ops);
    assert |s.sessions| == |ops| && Within(s, cap);
    hide *;
    AllRanges(s, cap);
  }

  lemma LastBudget(s: State, cap: nat)
    requires Inv(s) && Within(s, cap)
    ensures Budget(s.sessions, cap) >= 0
  {
    hide Within, LocksOk, FreshOk, WellFormed, Visible;
    AllRanges(s, cap);
  }

  /** Termination: whatever the schedule, a run over n calls whose receipts have at most `cap` lines
      has at most n * (2 * cap + 6) steps. */
  lemma RunsEnd(db: Db, ops: seq<Op>, run: seq<State>, cap: nat)
    requires Admissible(db, ops) && Capped(db, ops, cap) && IsRun(db, ops, run)
    ensures |run| - 1 <= |ops| * (2 * cap + 6)
  {
    assert run != [];
    hide *;
    RunBudget(db, ops, run, cap);
    RunGood(db, ops, run);
    LastBudget(run[|run| - 1], cap);
    InitBudget(db, ops, cap);
  }
}
