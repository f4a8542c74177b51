/** Every step of a status change or cancellation keeps the invariant and stays unseen until its
    commit, which is exactly the sequential move on the visible tables. */
module EngineMover {
  import opened Domain
  import opened Spec
  import opened Tables
  import opened Engine
  import opened EngineInvariant
  import opened EngineVisibility
  import opened EngineBuyer

  ghost predicate Mover(s: State, i: nat) {
    i < |s.sessions| && (s.sessions[i].op.ChangeStatus? || s.sessions[i].op.CustomerCancel?)
  }

  // ---------- lock and judge ----------

  /** A free, visible order row is a committed one, so it is in good order. */
  lemma FreeOrderOk(s: State, o: Id)
    requires WellFormed(Visible(s)) && o in s.db.orders && Free(s, OrderRow(o))
    ensures OrderOk(s.db.orders[o], Visible(s).dishes)
  {
    assert Visible(s).orders[o] == s.db.orders[o];
  }

  /** The request is one the services let into a transaction. */
  ghost predicate Nonzero(op: Op)
    requires op.ChangeStatus? || op.CustomerCancel?
  {
    OrderIdOf(op) != NIL && (if op.ChangeStatus? then op.restaurant != NIL else op.user != NIL)
  }

  lemma JudgingOk(t: Session, db: Db, order: Order)
    requires t.op.ChangeStatus? || t.op.CustomerCancel?
    requires Clean(t) && Nonzero(t.op) && OrderRowIs(t, db.orders, order) && ItemsOk(order.items)
    ensures var t' := t.(pc := Judging, order := Some(order));
            Local(t', db) && Footprint(t') == {OrderRow(OrderIdOf(t.op))}
  {
  }

  lemma LockOrderStep(s: State, i: nat)
    requires Inv(s) && Mover(s, i) && s.sessions[i].pc.Start? && LockOrder(s, i).Some?
    ensures Unseen(s, i, LockOrder(s, i).value)
  {
    var t := s.sessions[i];
    var id := OrderIdOf(t.op);
    if !Nonzero(t.op) {
      RejectStep(s, i, InvalidInput);
    } else if id !in s.db.orders || Invisible(s, id) {
      RejectStep(s, i, NotFound);
    } else {
      LockOrderRow(s, i);
    }
  }

  lemma LockOrderRow(s: State, i: nat)
    requires Inv(s) && Mover(s, i) && s.sessions[i].pc.Start? && Nonzero(s.sessions[i].op)
    requires var id := OrderIdOf(s.sessions[i].op);
             id in s.db.orders && !Invisible(s, id) && Free(s, OrderRow(id))
    ensures Unseen(s, i, LockOrder(s, i).value)
  {
    var t := s.sessions[i];
    var id := OrderIdOf(t.op);
    var s' := LockOrder(s, i).value;
    assert Local(t, s.db);
    FreeOrderOk(s, id);
    JudgingOk(t, s.db, s.db.orders[id]);
    assert Footprint(t) == {} && Pending(s'.sessions[i]) == {};
    hide Local, Footprint, Pending, WellFormed, Visible, ItemsOk, OrderOk, Invisible;
    QuietSight(s, i, s');
    LockOne(s, i, s', OrderRow(id));
    SameTables(s, i, s');
    hide LocksOk, FreshOk, AllLocal, SameSight, LockStep, TableStep;
    WorkStep(s, i, s');
  }

  ghost predicate Judged(t: Session, db: Db) {
    && Clean(t) && Moving(t) && OrderRowIs(t, db.orders, t.order.value)
    && VerdictOn(t.op, t.order.value).None?
  }

  lemma JudgedOk(t: Session, db: Db)
    requires t.pc.Judging? && Judged(t, db)
    ensures var t' := t.(pc := if TargetOf(t.op) == Cancelled then Refunding(0) else Stamping);
            Local(t', db) && Footprint(t') == Footprint(t)
  {
  }

  lemma JudgeStep(s: State, i: nat)
    requires Inv(s) && Mover(s, i) && s.sessions[i].pc.Judging? && s.sessions[i].order.Some?
    ensures Unseen(s, i, Judge(s, i))
  {
    var t := s.sessions[i];
    assert Local(t, s.db);
    var fault := VerdictOn(t.op, t.order.value);
    if fault.Some? {
      RejectStep(s, i, fault.value);
    } else {
      JudgedOk(t, s.db);
      hide Local, Footprint, LocksOk, FreshOk, WellFormed;
      ControlStep(s, i, t.(pc := if TargetOf(t.op) == Cancelled then Refunding(0) else Stamping));
    }
  }

  // ---------- refund ----------

  ghost predicate Refunds(t: Session, db: Db) {
    && t.pc.Refunding? && t.orderUndo == Untouched && Moving(t) && OrderRowIs(t, db.orders, t.order.value)
    && VerdictOn(t.op, t.order.value).None? && TargetOf(t.op) == Cancelled
    && RefundedSoFar(t, t.pc.line, db.dishes)
  }

  lemma RefundDoneOk(t: Session, db: Db)
    requires Refunds(t, db) && t.pc.line >= |t.order.value.items|
    ensures var t' := t.(pc := Stamping);
            Local(t', db) && Footprint(t') == Footprint(t)
  {
    var items := t.order.value.items;
    assert items[..|items|] == items;
  }

  lemma RefundedStep(items: seq<OrderItem>, line: nat)
    requires line < |items| && ItemsOk(items)
    ensures RefundedDishes(items, line + 1) == RefundedDishes(items, line) + [items[line].dish]
    ensures items[line].dish !in RefundedDishes(items, line)
    ensures forall j :: 0 <= j < |items| && j != line ==> items[j].dish != items[line].dish
  {
    forall j | 0 <= j < |items| && j != line ensures items[j].dish != items[line].dish {
      assert DishesOf(items)[j] == items[j].dish && DishesOf(items)[line] == items[line].dish;
    }
    assert forall j :: 0 <= j < line ==> RefundedDishes(items, line)[j] == items[j].dish;
  }

  /** The session after one turn of the refund loop. */
  function RefundedOne(t: Session, dishes: map<Id, Dish>): Session
    requires t.pc.Refunding? && t.order.Some? && t.pc.line < |t.order.value.items|
    requires t.order.value.items[t.pc.line].dish in dishes
  {
    var d := t.order.value.items[t.pc.line].dish;
    t.(pc := Refunding(t.pc.line + 1), before := t.before[d := dishes[d]])
  }

  function DishesRefunded(t: Session, dishes: map<Id, Dish>): map<Id, Dish>
    requires t.pc.Refunding? && t.order.Some? && t.pc.line < |t.order.value.items|
    requires t.order.value.items[t.pc.line].dish in dishes
  {
    var item := t.order.value.items[t.pc.line];
    dishes[item.dish := dishes[item.dish].(stock := dishes[item.dish].stock + item.qty)]
  }

  lemma RefundRow(t: Session, db: Db)
    requires Refunds(t, db) && t.pc.line < |t.order.value.items|
    requires var item := t.order.value.items[t.pc.line];
             item.dish in db.dishes && db.dishes[item.dish].stock + item.qty <= INT4_MAX
    ensures RefundedSoFar(RefundedOne(t, db.dishes), t.pc.line + 1, DishesRefunded(t, db.dishes))
    ensures t.order.value.items[t.pc.line].dish !in t.before
  {
    RefundedStep(t.order.value.items, t.pc.line);
    hide ItemsOk, RefundedDishes, Moving, VerdictOn, OrderRowIs;
  }

  lemma RefundRowOk(t: Session, db: Db)
    requires Refunds(t, db) && t.pc.line < |t.order.value.items|
    requires var item := t.order.value.items[t.pc.line];
             item.dish in db.dishes && db.dishes[item.dish].stock + item.qty <= INT4_MAX
    ensures var t' := RefundedOne(t, db.dishes);
            && Local(t', db.(dishes := DishesRefunded(t, db.dishes)))
            && Footprint(t') == Footprint(t) + {DishRow(t.order.value.items[t.pc.line].dish)}
  {
    RefundRow(t, db);
    RefundedStep(t.order.value.items, t.pc.line);
    hide RefundedSoFar, ItemsOk, RefundedDishes, VerdictOn, DishesRefunded;
  }

  /** The next receipt line can be returned now. */
  ghost predicate RefundsNow(s: State, i: nat) {
    && Mover(s, i) && Refunds(s.sessions[i], s.db)
    && s.sessions[i].pc.line < |s.sessions[i].order.value.items|
    && var item := s.sessions[i].order.value.items[s.sessions[i].pc.line];
       && item.dish in s.db.dishes && Free(s, DishRow(item.dish))
       && s.db.dishes[item.dish].stock + item.qty <= INT4_MAX
  }

  lemma RefundEffect(s: State, i: nat)
    requires RefundsNow(s, i)
    ensures var t := s.sessions[i];
            var s' := Refund(s, i).value;
            && Refund(s, i).Some?
            && s'.sessions == s.sessions[i := RefundedOne(t, s.db.dishes)]
            && s'.db == s.db.(dishes := DishesRefunded(t, s.db.dishes))
            && s'.locks == s.locks[DishRow(t.order.value.items[t.pc.line].dish) := i]
            && s'.log == s.log && Pending(s'.sessions[i]) == {}
  {
    hide Moving, VerdictOn, RefundedSoFar, OrderRowIs;
  }

  lemma RefundWork(s: State, i: nat)
    requires Inv(s) && RefundsNow(s, i)
    ensures Unseen(s, i, Refund(s, i).value)
  {
    var t := s.sessions[i];
    var d := t.order.value.items[t.pc.line].dish;
    RefundRowOk(t, s.db);
    RefundRow(t, s.db);
    RefundEffect(s, i);
    var s' := Refund(s, i).value;
    hide Refunds, Local, Footprint, Pending, WellFormed, Visible, RefundedSoFar, Refund;
    DishWriteSight(s, i, s', d, s'.db.dishes[d]);
    LockOne(s, i, s', DishRow(d));
    DishWrite(s, i, s', d, s'.db.dishes[d]);
    hide LocksOk, FreshOk, AllLocal, SameSight, LockStep, TableStep, RefundedOne, DishesRefunded;
    WorkStep(s, i, s');
  }

  lemma RefundStep(s: State, i: nat)
    requires Inv(s) && Mover(s, i) && s.sessions[i].pc.Refunding? && s.sessions[i].order.Some?
    requires Refund(s, i).Some?
    ensures Unseen(s, i, Refund(s, i).value)
  {
    var t := s.sessions[i];
    assert Local(t, s.db);
    assert Refunds(t, s.db);
    var items := t.order.value.items;
    if t.pc.line >= |items| {
      RefundDoneOk(t, s.db);
      hide Local, Footprint, LocksOk, FreshOk, WellFormed, Refunds;
      ControlStep(s, i, t.(pc := Stamping));
    } else if items[t.pc.line].dish !in s.db.dishes {
      RejectStep(s, i, MenuItemNotFound);
    } else if s.db.dishes[items[t.pc.line].dish].stock + items[t.pc.line].qty > INT4_MAX {
      RejectStep(s, i, InvalidInput);
    } else {
      RefundWork(s, i);
    }
  }

  // ---------- stamp ----------

  ghost predicate Stamps(t: Session, db: Db) {
    && t.pc.Stamping? && t.orderUndo == Untouched && Moving(t) && OrderRowIs(t, db.orders, t.order.value)
    && VerdictOn(t.op, t.order.value).None? && RefundDone(t, db.dishes)
  }

  lemma StampedOk(t: Session, db: Db)
    requires Stamps(t, db)
    ensures var stamped := Stamp(t.order.value, TargetOf(t.op), ActorOf(t.op));
            var t' := t.(pc := Closing, orderUndo := Replaced(t.order.value));
            && Local(t', db.(orders := db.orders[OrderIdOf(t.op) := stamped]))
            && Footprint(t') == Footprint(t) && OrderRow(OrderIdOf(t.op)) in Footprint(t)
  {
  }

  lemma StampSight(s: State, i: nat)
    requires Mover(s, i) && Stamps(s.sessions[i], s.db)
    ensures SameSight(s, i, StampOrder(s, i))
  {
    hide RefundDone, VerdictOn, ItemsOk;
  }

  lemma StampStep(s: State, i: nat)
    requires Inv(s) && Mover(s, i) && s.sessions[i].pc.Stamping? && s.sessions[i].order.Some?
    ensures Unseen(s, i, StampOrder(s, i))
  {
    var t := s.sessions[i];
    assert Local(t, s.db);
    assert Stamps(t, s.db);
    var s' := StampOrder(s, i);
    StampedOk(t, s.db);
    StampSight(s, i);
    assert Pending(s'.sessions[i]) == {};
    hide Stamps, Local, Footprint, Pending, WellFormed, Visible;
    SameLocks(s, i, s');
    OrderWrite(s, i, s', OrderIdOf(t.op), s'.db.orders[OrderIdOf(t.op)]);
    hide LocksOk, FreshOk, AllLocal, SameSight, LockStep, TableStep;
    WorkStep(s, i, s');
  }

  // ---------- commit ----------

  ghost predicate Closes(t: Session, db: Db) {
    && t.pc.Closing? && Moving(t) && t.orderUndo == Replaced(t.order.value)
    && OrderRowIs(t, db.orders, Stamp(t.order.value, TargetOf(t.op), ActorOf(t.op)))
    && VerdictOn(t.op, t.order.value).None? && RefundDone(t, db.dishes)
  }

  lemma CloserIs(s: State, i: nat)
    requires Mover(s, i) && LocalAt(s, i) && s.sessions[i].pc.Closing?
    ensures Closes(s.sessions[i], s.db)
  {
    assert Local(s.sessions[i], s.db);
  }

  /** Others still see the order as the session read it. */
  lemma OrderStillVisible(s: State, i: nat)
    requires LocksOk(s) && Mover(s, i) && Closes(s.sessions[i], s.db)
    ensures var id := OrderIdOf(s.sessions[i].op);
            id in Visible(s).orders && Visible(s).orders[id] == s.sessions[i].order.value
  {
    var t := s.sessions[i];
    assert OrderRow(OrderIdOf(t.op)) in Footprint(t);
    assert s.locks[OrderRow(OrderIdOf(t.op))] == i;
  }

  lemma RefundedDishVisible(s: State, i: nat, j: nat)
    requires LocksOk(s) && Mover(s, i) && Closes(s.sessions[i], s.db) && TargetOf(s.sessions[i].op) == Cancelled
    requires j < |s.sessions[i].order.value.items|
    ensures var t := s.sessions[i];
            var d := t.order.value.items[j].dish;
            && d in s.db.dishes && d in t.before && DishImage(s, d) == t.before[d]
  {
    var t := s.sessions[i];
    var items := t.order.value.items;
    assert DishesOf(items)[j] == items[j].dish;
    assert DishRow(items[j].dish) in Footprint(t);
    assert s.locks[DishRow(items[j].dish)] == i;
  }

  /** A returned dish: others see the version before the refund, the table holds the quantity on top. */
  lemma RefundedRow(s: State, i: nat, j: nat)
    requires LocksOk(s) && Mover(s, i) && Closes(s.sessions[i], s.db) && TargetOf(s.sessions[i].op) == Cancelled
    requires j < |s.sessions[i].order.value.items|
    ensures var item := s.sessions[i].order.value.items[j];
            && item.dish in s.db.dishes && item.dish in s.sessions[i].before
            && s.db.dishes[item.dish] == DishImage(s, item.dish).(stock := DishImage(s, item.dish).stock + item.qty)
            && QtyOf(s.sessions[i].order.value.items, item.dish) == item.qty
  {
    RefundedDishVisible(s, i, j);
    QtyOfLine(s.sessions[i].order.value.items, j);
    hide LocksOk, VerdictOn, DishImage, QtyOf;
  }

  /** A dish that is on no line of the order is in no undo log and gets nothing back. */
  lemma UnrefundedDish(s: State, i: nat, d: Id)
    requires LocksOk(s) && Mover(s, i) && Closes(s.sessions[i], s.db) && TargetOf(s.sessions[i].op) == Cancelled
    requires d in s.db.dishes && d !in DishesOf(s.sessions[i].order.value.items)
    ensures DishesAfter(s, i)[d] == Restock(Visible(s).dishes, s.sessions[i].order.value.items, true)[d]
  {
    var t := s.sessions[i];
    var items := t.order.value.items;
    assert items[..|items|] == items;
    assert forall j :: 0 <= j < |items| ==> items[j].dish == DishesOf(items)[j];
    assert d !in t.before;
    QtyOfAbsent(items, d);
    hide LocksOk, Closes, Moving, DishImage, QtyOf;
  }

  lemma RefundedDish(s: State, i: nat, d: Id)
    requires LocksOk(s) && Mover(s, i) && Closes(s.sessions[i], s.db) && TargetOf(s.sessions[i].op) == Cancelled
    requires d in s.db.dishes
    ensures DishesAfter(s, i)[d] == Restock(Visible(s).dishes, s.sessions[i].order.value.items, true)[d]
  {
    var ids := DishesOf(s.sessions[i].order.value.items);
    if d in ids {
      var j :| 0 <= j < |ids| && ids[j] == d;
      RefundedRow(s, i, j);
    } else {
      UnrefundedDish(s, i, d);
    }
    hide LocksOk, Closes, Moving, DishImage, QtyOf;
  }

  lemma CancelledDishes(s: State, i: nat)
    requires LocksOk(s) && Mover(s, i) && Closes(s.sessions[i], s.db) && TargetOf(s.sessions[i].op) == Cancelled
    ensures DishesAfter(s, i) == Restock(Visible(s).dishes, s.sessions[i].order.value.items, true)
    ensures RefundFault(Visible(s).dishes, s.sessions[i].order.value.items).None?
  {
    var t := s.sessions[i];
    var items := t.order.value.items;
    var a, b := DishesAfter(s, i), Restock(Visible(s).dishes, items, true);
    assert a.Keys == s.db.dishes.Keys == b.Keys;
    forall d | d in s.db.dishes ensures a[d] == b[d] {
      RefundedDish(s, i, d);
    }
    forall j | 0 <= j < |items|
      ensures items[j].dish in Visible(s).dishes && Visible(s).dishes[items[j].dish].stock + items[j].qty <= INT4_MAX
    {
      RefundedDishVisible(s, i, j);
    }
    RefundFaultNone(Visible(s).dishes, items);
    hide DishesAfter, Restock, Visible, LocksOk, Closes;
  }

  lemma UntouchedDishes(s: State, i: nat)
    requires i < |s.sessions| && s.sessions[i].before == map[]
    ensures DishesAfter(s, i) == Visible(s).dishes
  {
  }

  /** Committing a status change or cancellation is the sequential move on what everybody sees. */
  lemma MoveCommits(s: State, i: nat)
    requires LocksOk(s) && AllLocal(s) && Mover(s, i) && s.sessions[i].pc.Closing?
    ensures Apply(Visible(s), s.sessions[i].op) == Ok(Visible(Commit(s, i)))
  {
    var t := s.sessions[i];
    CloserIs(s, i);
    CommitVisible(s, i);
    OrderStillVisible(s, i);
    if TargetOf(t.op) == Cancelled {
      CancelledDishes(s, i);
    } else {
      UntouchedDishes(s, i);
    }
    assert Visible(s).categories == s.db.categories;
    MoveAgrees(s, i);
  }

  lemma MoveAgrees(s: State, i: nat)
    requires Mover(s, i) && Closes(s.sessions[i], s.db)
    requires Visible(Commit(s, i)) == Db(s.db.categories, DishesAfter(s, i), OrdersAfter(s, i))
    requires var id := OrderIdOf(s.sessions[i].op);
             id in Visible(s).orders && Visible(s).orders[id] == s.sessions[i].order.value
    requires Visible(s).categories == s.db.categories
    requires if TargetOf(s.sessions[i].op) == Cancelled
             then DishesAfter(s, i) == Restock(Visible(s).dishes, s.sessions[i].order.value.items, true)
                  && RefundFault(Visible(s).dishes, s.sessions[i].order.value.items).None?
             else DishesAfter(s, i) == Visible(s).dishes
    ensures Apply(Visible(s), s.sessions[i].op) == Ok(Visible(Commit(s, i)))
  {
    hide DishesAfter, Restock, Visible, Commit, RefundDone, ItemsOk, RefundFault;
  }
}
