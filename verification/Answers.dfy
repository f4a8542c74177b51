/** A rejected order call is answered as the sequential call would answer it, on what everybody sees
    at the moment of the rejection. */
module Answers {
  import opened Domain
  import opened Spec
  import opened Tables
  import opened Engine
  import opened EngineInvariant
  import opened EngineVisibility
  import opened EngineBuyer
  import opened EngineMover
  import opened EngineMenu

  // ---------- checkout ----------

  /** A checkout whose row count is short misses a wanted dish, now or in its snapshot. */
  lemma ShortCount(t: Session, dishes: map<Id, Dish>)
    requires Buying(t) && LockedSoFar(t, [], dishes) && |t.rows| != |t.op.input.lines|
    ensures !(WantOf(t).Keys <= dishes.Keys) || !(WantOf(t).Keys <= t.known)
  {
    var want := WantOf(t);
    var ids := Ids(t.rows);
    assert ids + [] == ids;
    assert |want| == |t.op.input.lines| by { WantedIsRequest(t.op.input.lines); }
    AscendingSize(ids);
    assert want.Keys <= dishes.Keys && want.Keys <= t.known ==> Elements(ids) == want.Keys;
  }

  /** The row versions others see are the ones read under lock, also in the middle of the loop. */
  lemma SellerRowVisible(s: State, i: nat, j: nat)
    requires LocksOk(s) && LocalAt(s, i) && i < |s.sessions|
    requires s.sessions[i].op.Checkout? && s.sessions[i].pc.Selling? && j < |s.sessions[i].rows|
    ensures var row := s.sessions[i].rows[j];
            row.id in s.db.dishes && DishImage(s, row.id) == row.dish
  {
    var t := s.sessions[i];
    assert Local(t, s.db);
    assert Ids(t.rows)[j] == t.rows[j].id;
    assert DishRow(t.rows[j].id) in Footprint(t);
    assert s.locks[DishRow(t.rows[j].id)] == i;
    assert Ascends(Ids(t.rows)) by { AscendingIs(WantOf(t).Keys); }
    ImagesAre(t.rows, t.pc.line);
    if j >= t.pc.line && t.rows[j].id in t.before {
      var k :| 0 <= k < t.pc.line && Ids(t.rows[..t.pc.line])[k] == t.rows[j].id;
      RowsDistinct(t.rows, k, j);
    }
  }

  lemma SellerRows(s: State, i: nat)
    requires LocksOk(s) && LocalAt(s, i) && i < |s.sessions|
    requires s.sessions[i].op.Checkout? && s.sessions[i].pc.Selling?
    ensures RowsCurrent(Visible(s).dishes, s.sessions[i].rows, WantOf(s.sessions[i]))
    ensures Buying(s.sessions[i]) && SoldSoFar(s.sessions[i], s.sessions[i].pc.line, s.db.dishes)
  {
    var t := s.sessions[i];
    assert Buying(t) && SoldSoFar(t, t.pc.line, s.db.dishes) by { assert Local(t, s.db); }
    forall j | 0 <= j < |t.rows|
      ensures t.rows[j].id in s.db.dishes && DishImage(s, t.rows[j].id) == t.rows[j].dish
    {
      SellerRowVisible(s, i, j);
    }
    assert RowsCovered(t.rows, WantOf(t)) && Ids(t.rows) == Ascending(WantOf(t).Keys);
    hide SoldSoFar, Local, LocksOk, DishImage, WantOf;
  }

  lemma SellAnswer(s: State, i: nat, error: Error)
    requires LocksOk(s) && LocalAt(s, i) && i < |s.sessions|
    requires s.sessions[i].op.Checkout? && s.sessions[i].pc.Selling?
    requires s.sessions[i].pc.line < |s.sessions[i].rows|
    requires Sell(s, i).sessions[i].pc == Rejected(error)
    ensures Apply(Visible(s), s.sessions[i].op) == Err(error)
  {
    var t := s.sessions[i];
    var want := WantOf(t);
    SellerRows(s, i);
    var row := t.rows[t.pc.line];
    var fault := LineFault(row.dish, t.op.input.restaurant, want[row.id]);
    if fault.None? {
      GuardNeverFails(t, t.pc.line, s.db.dishes);
      assert false;
    }
    FirstRefusal(t.rows, t.op.input.restaurant, want, t.pc.line);
    assert error == fault.value;
    CheckoutIsSale(Visible(s), t.op, t.rows);
  }

  lemma InsertAnswer(s: State, i: nat, error: Error)
    requires LocksOk(s) && AllLocal(s) && FreshOk(s) && i < |s.sessions|
    requires s.sessions[i].op.Checkout? && s.sessions[i].pc.Selling?
    requires s.sessions[i].pc.line >= |s.sessions[i].rows|
    requires Insert(s, i).sessions[i].pc == Rejected(error)
    ensures Apply(Visible(s), s.sessions[i].op) == Err(error)
  {
    var t := s.sessions[i];
    SellerRows(s, i);
    SellerDone(s, i);
    PendingRowFree(s, i, t.op.orderId);
    LinesFaultNone(t.rows, t.op.input.restaurant, WantOf(t));
    CheckoutIsSale(Visible(s), t.op, t.rows);
  }

  /** The count check refuses because a wanted dish is missing now, or was missing from the snapshot. */
  lemma CountMeans(s: State, i: nat)
    requires LocalAt(s, i) && i < |s.sessions|
    requires s.sessions[i].op.Checkout? && s.sessions[i].pc == Locking([])
    requires |s.sessions[i].rows| != |s.sessions[i].op.input.lines|
    ensures var want := WantOf(s.sessions[i]).Keys;
            !(want <= s.db.dishes.Keys) || !(want <= s.sessions[i].known)
  {
    var t := s.sessions[i];
    assert Buying(t) && LockedSoFar(t, [], s.db.dishes) by { assert Local(t, s.db); }
    ShortCount(t, s.db.dishes);
  }

  /** On its own, a checkout answers that a dish is missing exactly when one is. */
  lemma MissingAnswer(db: Db, op: Op)
    requires op.Checkout? && EntryFault(op.input, op.sample).None?
    ensures Apply(db, op) == Err(MenuItemNotFound) <==> !(Wanted(op.input.lines).Keys <= db.dishes.Keys)
  {
    if Wanted(op.input.lines).Keys <= db.dishes.Keys {
      LineErrors(FetchWanted(db.dishes, Wanted(op.input.lines)), op.input.restaurant, Wanted(op.input.lines));
    }
    hide EntryFault, Wanted, LinesFault, ExactTotal, Wrap64, Restock;
  }

  lemma {:induction false} LineErrors(rows: seq<Fetched>, restaurant: Id, want: map<Id, int>)
    requires RowsCovered(rows, want)
    ensures LinesFault(rows, restaurant, want) != Some(MenuItemNotFound)
  {
    if rows != [] {
      LineErrors(rows[..|rows| - 1], restaurant, want);
    }
  }

  // ---------- status change and cancellation ----------

  lemma LockAnswer(s: State, i: nat, error: Error)
    requires Mover(s, i) && s.sessions[i].pc.Start? && LockOrder(s, i).Some?
    requires LockOrder(s, i).value.sessions[i].pc == Rejected(error)
    ensures Apply(Visible(s), s.sessions[i].op) == Err(error)
  {
    hide Undone, Unlocked;
  }

  lemma HeldOrderVisible(s: State, i: nat)
    requires LocksOk(s) && Mover(s, i) && LocalAt(s, i)
    requires s.sessions[i].pc.Judging? || s.sessions[i].pc.Refunding?
    ensures var t := s.sessions[i];
            && Moving(t) && t.orderUndo == Untouched
            && OrderIdOf(t.op) in Visible(s).orders && Visible(s).orders[OrderIdOf(t.op)] == t.order.value
  {
    var t := s.sessions[i];
    assert Local(t, s.db);
    assert OrderRow(OrderIdOf(t.op)) in Footprint(t);
    assert s.locks[OrderRow(OrderIdOf(t.op))] == i;
  }

  lemma JudgeAnswer(s: State, i: nat, error: Error)
    requires LocksOk(s) && LocalAt(s, i) && Mover(s, i) && s.sessions[i].pc.Judging? && s.sessions[i].order.Some?
    requires Judge(s, i).sessions[i].pc == Rejected(error)
    ensures Apply(Visible(s), s.sessions[i].op) == Err(error)
  {
    HeldOrderVisible(s, i);
    hide Visible, LocksOk, LocalAt, Undone, Unlocked;
  }

  /** Lines already returned show their before-images, and those fitted. */
  lemma RefundedLineVisible(s: State, i: nat, j: nat)
    requires LocksOk(s) && LocalAt(s, i) && Mover(s, i) && s.sessions[i].pc.Refunding?
    requires s.sessions[i].order.Some? && j < s.sessions[i].pc.line
    ensures var t := s.sessions[i];
            && j < |t.order.value.items|
            && var item := t.order.value.items[j];
               item.dish in s.db.dishes && DishImage(s, item.dish).stock + item.qty <= INT4_MAX
  {
    var t := s.sessions[i];
    var items := t.order.value.items;
    assert Local(t, s.db);
    assert RefundedDishes(items, t.pc.line)[j] == items[j].dish;
    assert DishRow(items[j].dish) in Footprint(t);
    assert s.locks[DishRow(items[j].dish)] == i;
  }

  /** Every line still to be returned names a dish that is there. */
  lemma RefundLinesExist(s: State, i: nat)
    requires Inv(s) && Mover(s, i) && s.sessions[i].pc.Refunding?
    ensures Moving(s.sessions[i])
    ensures var items := s.sessions[i].order.value.items;
            forall j :: 0 <= j < |items| ==> items[j].dish in s.db.dishes
  {
    HeldOrderVisible(s, i);
    assert OrderOk(s.sessions[i].order.value, Visible(s).dishes);
    hide LocksOk, AllLocal, FreshOk, LocalAt;
  }

  lemma CancelFails(db: Db, op: Op, order: Order, error: Error)
    requires (op.ChangeStatus? || op.CustomerCancel?) && Nonzero(op) && TargetOf(op) == Cancelled
    requires OrderIdOf(op) in db.orders && db.orders[OrderIdOf(op)] == order && VerdictOn(op, order).None?
    requires RefundFault(db.dishes, order.items) == Some(error)
    ensures Apply(db, op) == Err(error)
  {
    hide RefundFault, Restock;
  }

  /** The lines already returned fitted, seen from outside too. */
  lemma ReturnedLinesFit(s: State, i: nat)
    requires Inv(s) && Mover(s, i) && s.sessions[i].pc.Refunding? && s.sessions[i].order.Some?
    ensures var items, k := s.sessions[i].order.value.items, s.sessions[i].pc.line;
            k <= |items| && forall j :: 0 <= j < k ==>
              items[j].dish in Visible(s).dishes && Visible(s).dishes[items[j].dish].stock + items[j].qty <= INT4_MAX
  {
    var items, k := s.sessions[i].order.value.items, s.sessions[i].pc.line;
    RefundLinesExist(s, i);
    assert k <= |items| by { assert Local(s.sessions[i], s.db); }
    forall j | 0 <= j < k
      ensures items[j].dish in Visible(s).dishes && Visible(s).dishes[items[j].dish].stock + items[j].qty <= INT4_MAX
    {
      RefundedLineVisible(s, i, j);
    }
  }

  /** The line at which the refund stops does not fit, seen from outside too. */
  lemma StoppedLine(s: State, i: nat, error: Error)
    requires Inv(s) && Mover(s, i) && s.sessions[i].pc.Refunding? && s.sessions[i].order.Some?
    requires Refund(s, i).Some? && Refund(s, i).value.sessions[i].pc == Rejected(error)
    ensures var items, k := s.sessions[i].order.value.items, s.sessions[i].pc.line;
            && error == InvalidInput && k < |items| && items[k].dish in Visible(s).dishes
            && Visible(s).dishes[items[k].dish].stock + items[k].qty > INT4_MAX
  {
    RefundLinesExist(s, i);
    hide Inv, LocksOk, AllLocal, FreshOk, WellFormed, Moving, Undone, Unlocked;
  }

  /** A session in the refund loop has passed every check on its order, which others still see unchanged. */
  lemma RefundingIs(s: State, i: nat)
    requires LocksOk(s) && LocalAt(s, i) && Mover(s, i) && s.sessions[i].pc.Refunding? && s.sessions[i].order.Some?
    ensures Nonzero(s.sessions[i].op) && VerdictOn(s.sessions[i].op, s.sessions[i].order.value).None?
    ensures TargetOf(s.sessions[i].op) == Cancelled
    ensures OrderIdOf(s.sessions[i].op) in Visible(s).orders
    ensures Visible(s).orders[OrderIdOf(s.sessions[i].op)] == s.sessions[i].order.value
  {
    HeldOrderVisible(s, i);
    assert Local(s.sessions[i], s.db);
    hide LocksOk, LocalAt, Visible, VerdictOn, RefundedSoFar;
  }

  /** A refund never finds a dish missing; it can only find a stock that no longer fits. */
  lemma RefundAnswer(s: State, i: nat, error: Error)
    requires Inv(s) && Mover(s, i) && s.sessions[i].pc.Refunding? && s.sessions[i].order.Some?
    requires Refund(s, i).Some? && Refund(s, i).value.sessions[i].pc == Rejected(error)
    ensures error == InvalidInput && Apply(Visible(s), s.sessions[i].op) == Err(error)
  {
    var t := s.sessions[i];
    assert LocksOk(s) && LocalAt(s, i) && i < |s.sessions| && (t.op.ChangeStatus? || t.op.CustomerCancel?);
    hide *;
    RefundingIs(s, i);
    ReturnedLinesFit(s, i);
    StoppedLine(s, i, error);
    FirstRefundFault(Visible(s).dishes, t.order.value.items, t.pc.line);
    CancelFails(Visible(s), t.op, t.order.value, InvalidInput);
  }

  // ---------- menu calls ----------

  /** A row that an earlier check of the call found is gone when the next check, or the statement's foreign
      key, comes to need it. */
  ghost predicate Outdated(s: State, i: nat)
    requires i < |s.sessions|
  {
    var t := s.sessions[i];
    match t.op
    case AddItem(_, dish) => t.pc.Writing? && !CategoryOf(s.db.categories, dish.category, dish.restaurant)
    case EditItem(restaurant, item, patch) =>
      if t.pc.Vetting? then item !in s.db.dishes
      else
        && (t.pc.Writing? || t.pc.Checking?) && item in s.db.dishes
        && patch.category.Some? && !CategoryOf(s.db.categories, patch.category.value, restaurant)
    case _ => false
  }

  /** The first check reads columns that everybody sees alike. */
  lemma FirstCheckVisible(s: State, op: Op)
    requires LocksOk(s) && AllLocal(s) && !op.IsOrderOp()
    ensures MenuFault(Visible(s), FirstCheck(op)) == MenuFault(s.db, FirstCheck(op))
  {
    if (op.EditItem? || op.DropItem?) && op.item in s.db.dishes {
      ColumnsVisible(s, op.item);
    }
    hide LocksOk, AllLocal, DishImage, DishInRange, PatchInRange;
  }

  /** What the first check reports, the whole check reports. */
  lemma FirstCheckDecides(db: Db, op: Op)
    requires !op.IsOrderOp()
    ensures op.EditItem? && !PatchInRange(op.patch) ==> MenuFault(db, op) == Some(InvalidInput)
    ensures (op.EditItem? ==> PatchInRange(op.patch)) && MenuFault(db, FirstCheck(op)).Some? ==>
              MenuFault(db, op) == MenuFault(db, FirstCheck(op))
  {
  }

  lemma BeginMenuAnswer(s: State, i: nat, error: Error)
    requires LocksOk(s) && AllLocal(s) && Partner(s, i) && BeginMenu(s, i).sessions[i].pc == Rejected(error)
    ensures MenuFault(Visible(s), s.sessions[i].op) == Some(error)
  {
    FirstCheckVisible(s, s.sessions[i].op);
    FirstCheckDecides(Visible(s), s.sessions[i].op);
    hide LocksOk, AllLocal, Undone, Unlocked, Visible, MenuFault, FirstCheck, PatchInRange;
  }

  lemma VetAnswer(s: State, i: nat, error: Error)
    requires LocksOk(s) && AllLocal(s) && Partner(s, i) && s.sessions[i].op.EditItem? && s.sessions[i].pc.Vetting?
    requires Vet(s, i).sessions[i].pc == Rejected(error)
    ensures error == CategoryNotFound
    ensures MenuFault(Visible(s), s.sessions[i].op)
            == Some(if Outdated(s, i) then MenuItemNotFound else CategoryNotFound)
  {
    var t := s.sessions[i];
    assert Vetted(t, s.db) by { assert Local(t, s.db); }
    if t.op.item in s.db.dishes {
      ColumnsVisible(s, t.op.item);
    }
    hide LocksOk, AllLocal, Undone, Unlocked, DishImage, PatchInRange;
  }

  /** A statement that fails on the tables in place fails in the same way on the tables everybody sees. */
  lemma StatementAnswer(s: State, i: nat)
    requires LocksOk(s) && AllLocal(s) && Settles(s, i) && Statement(s.db, s.sessions[i].op).Err?
    ensures Statement(Visible(s), s.sessions[i].op) == Statement(s.db, s.sessions[i].op)
  {
    var op := s.sessions[i].op;
    if op.DropCategory? {
      UsedVisible(s, op.category);
    } else if op.DropItem? {
      DropFree(s, i);
      OrderedVisible(s, op.item);
    } else if op.EditItem? && op.patch != NoChange && op.item in s.db.dishes {
      assert LocalAt(s, i);
      SettlerKnows(s, i);
      OwnRowVisible(s, i, op.item);
    }
    hide LocksOk, AllLocal, CategoryUsed, DishOrdered, NameTaken, DishInRange, DishImage, ChecksLater;
  }

  /** The checks of a call whose statement fails, made again at that moment: they pass, or fail as the
      statement did, unless the category that a new or moved dish refers to is gone. */
  lemma ChecksAgain(s: State, i: nat)
    requires LocksOk(s) && AllLocal(s) && Settles(s, i) && Statement(s.db, s.sessions[i].op).Err?
    ensures var fault, error := MenuFault(Visible(s), s.sessions[i].op), Statement(s.db, s.sessions[i].op).error;
            if Outdated(s, i) then fault.Some? && fault.value != error else fault.None? || fault.value == error
  {
    var op := s.sessions[i].op;
    assert LocalAt(s, i);
    SettlerKnows(s, i);
    if (op.EditItem? || op.DropItem?) && op.item in s.db.dishes {
      ColumnsVisible(s, op.item);
    }
    hide LocksOk, AllLocal, DishImage, CategoryUsed, DishOrdered, NameTaken, ChecksLater;
  }

  /** A rejected menu call gets the sequential call's own answer on the tables everybody sees at that
      moment, if and only if no row that one of its checks had found is missing by then. */
  lemma MenuRejectionIsSequential(s: State, i: nat, s': State, error: Error)
    requires Inv(s) && Partner(s, i) && Advance(s, i) == Some(s')
    requires i < |s'.sessions| && s'.sessions[i].pc == Rejected(error)
    ensures Apply(Visible(s), s.sessions[i].op) == Err(error) <==> !Outdated(s, i)
    ensures Apply(Visible(s), s.sessions[i].op).Err?
  {
    var t := s.sessions[i];
    if t.pc.Start? {
      BeginMenuAnswer(s, i, error);
    } else if t.pc.Vetting? {
      VetAnswer(s, i, error);
    } else {
      assert LocalAt(s, i);
      RefusedSettles(s, i, s', error);
      StatementAnswer(s, i);
      ChecksAgain(s, i);
    }
    hide LocksOk, AllLocal, FreshOk, WellFormed, Visible, MenuFault, Statement, Settles;
  }

  /** A refusal by the statement itself is its outcome on the tables in place. */
  lemma RefusedSettles(s: State, i: nat, s': State, error: Error)
    requires LocalAt(s, i) && Partner(s, i) && AdvanceMenu(s, i) == Some(s')
    requires !s.sessions[i].pc.Start? && !s.sessions[i].pc.Vetting?
    requires i < |s'.sessions| && s'.sessions[i].pc == Rejected(error)
    requires LocksOk(s)
    ensures Settles(s, i) && Statement(s.db, s.sessions[i].op) == Err(error)
  {
    var t := s.sessions[i];
    assert Local(t, s.db);
    if t.pc.Checking? {
      assert Target(t.op).Some? && Target(t.op).value in Footprint(t);
    }
    hide Vetted, Statement, LocksOk, LocalAt, Local, Undone, Unlocked, CheckedRows, ChecksLater;
  }

  // ---------- all rejections ----------

  /** The checkout is about to count its rows, one of its dishes was not in the snapshot of its locking
      query, and all of them are on the menu by now. */
  ghost predicate Late(s: State, i: nat)
    requires i < |s.sessions|
  {
    var t := s.sessions[i];
    t.op.Checkout? && t.pc == Locking([]) && !(WantOf(t).Keys <= t.known) && WantOf(t).Keys <= s.db.dishes.Keys
  }

  /** Only rows of the snapshot are locked, so a dish outside it leaves the count short. */
  lemma LateIsRefused(s: State, i: nat)
    requires Inv(s) && i < |s.sessions| && Late(s, i)
    ensures |s.sessions[i].rows| != |s.sessions[i].op.input.lines|
    ensures LockNext(s, i) == Some(Reject(s, i, MenuItemNotFound))
  {
    var t := s.sessions[i];
    assert Buying(t) && LockedSoFar(t, [], s.db.dishes) by { assert Local(t, s.db); }
    var ids := Ids(t.rows);
    assert ids + [] == ids;
    AscendingSize(ids);
    assert Elements(ids) < WantOf(t).Keys;
    ProperSubsetSize(Elements(ids), WantOf(t).Keys);
    WantedIsRequest(t.op.input.lines);
    hide LocksOk, AllLocal, FreshOk, WellFormed, Visible, Wanted, LockedSoFar;
  }

  lemma ProperSubsetSize(a: set<Id>, b: set<Id>)
    requires a < b
    ensures |a| < |b|
  {
    assert |b - a| == |b| - |a|;
  }

  /** Only the row count reports a missing dish. */
  lemma NotFoundOnlyLocking(s: State, i: nat, s': State, error: Error)
    requires i < |s.sessions| && s.sessions[i].op.Checkout? && AdvanceCheckout(s, i) == Some(s')
    requires i < |s'.sessions| && s'.sessions[i].pc == Rejected(error) && error == MenuItemNotFound
    ensures s.sessions[i].pc == Locking([]) && |s.sessions[i].rows| != |s.sessions[i].op.input.lines|
  {
    hide Undone, Unlocked, Wanted, ReceiptSoFar, Wrap64, ValidLines;
  }

  lemma CheckoutAnswers(s: State, i: nat, s': State, error: Error)
    requires Inv(s) && i < |s.sessions| && s.sessions[i].op.Checkout? && AdvanceCheckout(s, i) == Some(s')
    requires i < |s'.sessions| && s'.sessions[i].pc == Rejected(error) && error != MenuItemNotFound
    ensures Apply(Visible(s), s.sessions[i].op) == Err(error)
  {
    var t := s.sessions[i];
    hide Inv, Visible, Apply, Undone, Unlocked;
    match t.pc
    case Start =>
      assert EntryFault(t.op.input, t.op.sample) == Some(error);
      StartAnswer(s, t.op);
    case Selling(line, _) => if line < |t.rows| { SellAnswer(s, i, error); } else { InsertAnswer(s, i, error); }
    case _ =>
  }

  lemma StartAnswer(s: State, op: Op)
    requires op.Checkout? && EntryFault(op.input, op.sample).Some?
    ensures Apply(Visible(s), op) == Err(EntryFault(op.input, op.sample).value)
  {
  }

  lemma MissAnswer(s: State, i: nat, s': State)
    requires Inv(s) && i < |s.sessions| && s.sessions[i].op.Checkout? && AdvanceCheckout(s, i) == Some(s')
    requires i < |s'.sessions| && s'.sessions[i].pc == Rejected(MenuItemNotFound)
    ensures Apply(Visible(s), s.sessions[i].op) == Err(MenuItemNotFound) <==> !Late(s, i)
  {
    var t := s.sessions[i];
    NotFoundOnlyLocking(s, i, s', MenuItemNotFound);
    CountMeans(s, i);
    assert Buying(t) by { assert Local(t, s.db); }
    assert Visible(s).dishes.Keys == s.db.dishes.Keys;
    hide Inv, Visible, AdvanceCheckout, LocalAt;
    MissingAnswer(Visible(s), t.op);
  }

  lemma MoveAnswers(s: State, i: nat, s': State, error: Error)
    requires Inv(s) && Mover(s, i) && AdvanceMove(s, i) == Some(s')
    requires i < |s'.sessions| && s'.sessions[i].pc == Rejected(error)
    ensures Apply(Visible(s), s.sessions[i].op) == Err(error)
  {
    hide Visible, Apply, Undone, Unlocked, WellFormed, FreshOk;
    match s.sessions[i].pc
    case Start => LockAnswer(s, i, error);
    case Judging => JudgeAnswer(s, i, error);
    case Refunding(_) => RefundAnswer(s, i, error);
    case _ =>
  }

  lemma OrderRejectionIsSequential(s: State, i: nat, s': State, error: Error)
    requires Inv(s) && i < |s.sessions| && s.sessions[i].op.IsOrderOp()
    requires Advance(s, i) == Some(s') && i < |s'.sessions| && s'.sessions[i].pc == Rejected(error)
    ensures Apply(Visible(s), s.sessions[i].op) == Err(error) <==> !Late(s, i)
  {
    hide Inv, Visible, Apply, AdvanceCheckout, AdvanceMove;
    if !s.sessions[i].op.Checkout? {
      MoveAnswers(s, i, s', error);
    } else if error == MenuItemNotFound {
      MissAnswer(s, i, s');
    } else {
      CheckoutAnswers(s, i, s', error);
      OtherIsNotLate(s, i, s', error);
    }
  }

  /** A call that the service rejects gets the sequential call's own answer on the tables everybody sees at
      that moment, if and only if it is neither a late checkout, whose dishes are all there by now although
      one of them came after the snapshot of its locking query, nor an outdated menu call. */
  lemma RejectionIsSequential(s: State, i: nat, s': State, error: Error)
    requires Inv(s) && i < |s.sessions|
    requires Advance(s, i) == Some(s') && i < |s'.sessions| && s'.sessions[i].pc == Rejected(error)
    ensures Apply(Visible(s), s.sessions[i].op) == Err(error) <==> !Late(s, i) && !Outdated(s, i)
  {
    hide Inv, Visible, Apply, Advance;
    if s.sessions[i].op.IsOrderOp() {
      OrderRejectionIsSequential(s, i, s', error);
    } else {
      MenuRejectionIsSequential(s, i, s', error);
    }
  }

  lemma OtherIsNotLate(s: State, i: nat, s': State, error: Error)
    requires Inv(s) && i < |s.sessions| && s.sessions[i].op.Checkout? && AdvanceCheckout(s, i) == Some(s')
    requires i < |s'.sessions| && s'.sessions[i].pc == Rejected(error) && error != MenuItemNotFound
    ensures !Late(s, i)
  {
    if Late(s, i) {
      LateIsRefused(s, i);
    }
  }
}
