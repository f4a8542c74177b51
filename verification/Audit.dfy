/** The order lifecycle over whole histories: audit chains, refunds that happen once, receipts that
    never change, and when a cancellation or a total goes wrong. */
module Audit {
  import opened Domain
  import opened Spec
  import opened Tables
  import opened Ledger

  // ---------- one audit chain ----------

  /** Position of a status in the forward lifecycle; cancellation comes after everything. */
  function Rung(status: Status): nat {
    match status
    case Created => 0
    case Accepted => 1
    case Cooking => 2
    case Ready => 3
    case Delivering => 4
    case Completed => 5
    case Cancelled => 6
  }

  /** Entries climb one rung at a time; only the last one may be a cancellation, from a low rung. */
  lemma {:induction false} ChainClimbs(history: seq<Entry>, k: nat)
    requires Chain(history) && k < |history|
    ensures history[k].to == Cancelled ==> k == |history| - 1 && 1 <= k <= 3
    ensures history[k].to != Cancelled ==> Rung(history[k].to) == k
  {
    if k > 0 {
      ChainClimbs(history, k - 1);
      assert LegalMove(history[k - 1].to, history[k].to, history[k].actor);
      assert k + 1 < |history| ==> LegalMove(history[k].to, history[k + 1].to, history[k + 1].actor);
    }
  }

  /** An audit trail has at most six entries and never repeats a status. */
  lemma ChainBound(history: seq<Entry>)
    requires Chain(history)
    ensures 1 <= |history| <= 6
    ensures forall j, k :: 0 <= j < k < |history| ==> history[j].to != history[k].to
  {
    ChainClimbs(history, |history| - 1);
    forall j, k | 0 <= j < k < |history| ensures history[j].to != history[k].to {
      ChainClimbs(history, j);
      ChainClimbs(history, k);
    }
  }

  /** Each entry starts where the one before it ended, and the first one starts from nothing. */
  ghost predicate Links(entries: seq<Entry>) {
    && (entries != [] ==> entries[0].from == None)
    && forall k :: 0 < k < |entries| ==> entries[k].from == Some(entries[k - 1].to)
  }

  lemma SameEntry(history: seq<Entry>, j: nat, k: nat)
    requires Chain(history) && j < |history| && k < |history| && history[j].from == history[k].from
    ensures j == k
  {
    ChainBound(history);
    assert j > 0 ==> history[j].from == Some(history[j - 1].to);
    assert k > 0 ==> history[k].from == Some(history[k - 1].to);
  }

  lemma {:induction false} LinkedAt(history: seq<Entry>, entries: seq<Entry>, k: nat)
    requires Chain(history) && Links(entries) && multiset(entries) == multiset(history)
    requires |entries| == |history| && k < |entries|
    ensures entries[k] == history[k]
  {
    if k > 0 {
      LinkedAt(history, entries, k - 1);
    }
    assert entries[k] in multiset(history);
    var j :| 0 <= j < |history| && history[j] == entries[k];
    assert k > 0 ==> history[k].from == Some(history[k - 1].to);
    assert k > 0 ==> entries[k].from == Some(entries[k - 1].to);
    SameEntry(history, j, k);
  }

  /** However the entries of a trail are read back, only its own order links up: timestamps are not
      needed to reconstruct it. */
  lemma ChainUnique(history: seq<Entry>, entries: seq<Entry>)
    requires Chain(history) && multiset(entries) == multiset(history) && Links(entries)
    ensures entries == history
  {
    assert |entries| == |multiset(entries)| == |multiset(history)| == |history|;
    forall k | 0 <= k < |entries| ensures entries[k] == history[k] {
      LinkedAt(history, entries, k);
    }
  }

  /** An order that has been ready is never found cancelled. */
  lemma ReadyStays(order: Order, k: nat)
    requires HistoryOk(order) && k < |order.history| && order.history[k].to == Ready
    ensures order.status == Ready || order.status == Delivering || order.status == Completed
  {
    var n := |order.history| - 1;
    ChainClimbs(order.history, k);
    ChainClimbs(order.history, n);
  }

  // ---------- orders over a history ----------

  /** What later calls may do to an order row: extend its trail, and change its status with it. */
  ghost predicate Aged(before: Order, after: Order) {
    && after == before.(status := after.status, history := after.history)
    && before.history <= after.history
    && (before.status == Cancelled ==> after == before)
  }

  lemma AgedTwice(a: Order, b: Order, c: Order)
    requires Aged(a, b) && Aged(b, c)
    ensures Aged(a, c)
  {
  }

  lemma ApplyAges(db: Db, op: Op, o: Id)
    requires Apply(db, op).Ok? && o in db.orders
    ensures o in Apply(db, op).value.orders && Aged(db.orders[o], Apply(db, op).value.orders[o])
  {
    if op.Checkout? {
      CheckoutEffect(db, op, 0);
    } else if op.IsOrderOp() {
      hide RefundFault, Restock;
    } else {
      MenuStock(db, op, 0);
    }
  }

  /** Receipts, totals and owners never change once an order is in, whatever is called afterwards:
      no price edit, no cancellation, no other order reaches them; trails only grow; a cancelled
      order stays as it is. */
  lemma {:induction false} ReceiptsFrozen(init: Db, ops: seq<Op>, log: seq<nat>, k: nat, o: Id)
    requires InRange(ops, log) && k <= |log| && Replay(init, ops, log).Some?
    ensures InRange(ops, log[..k]) && Replay(init, ops, log[..k]).Some?
    ensures o in Replay(init, ops, log[..k]).value.orders ==>
              && o in Replay(init, ops, log).value.orders
              && Aged(Replay(init, ops, log[..k]).value.orders[o], Replay(init, ops, log).value.orders[o])
  {
    if k == |log| {
      assert log[..k] == log;
    } else {
      var n := |log| - 1;
      var before := ReplayPrefix(init, ops, log);
      ReceiptsFrozen(init, ops, log[..n], k, o);
      assert log[..n][..k] == log[..k];
      if o in before.orders {
        ApplyAges(before, ops[log[n]], o);
      }
      hide Apply, Aged;
      if o in Replay(init, ops, log[..k]).value.orders {
        AgedTwice(Replay(init, ops, log[..k]).value.orders[o], before.orders[o], Replay(init, ops, log).value.orders[o]);
      }
    }
  }

  // ---------- refunds ----------

  /** Units of dish d that calls on order o have put back on the shelf along a history. */
  function Returned(init: Db, ops: seq<Op>, log: seq<nat>, o: Id, d: Id): int
    requires InRange(ops, log)
  {
    if log == [] then 0
    else
      var n := |log| - 1;
      var before := Replay(init, ops, log[..n]);
      var after := Replay(init, ops, log);
      Returned(init, ops, log[..n], o, d)
      + (if MovedOrder(ops[log[n]]) == Some(o) && before.Some? && after.Some?
         then Stock(after.value, d) - Stock(before.value, d) else 0)
  }

  /** Units of dish d that order o has given back, read off its row. */
  function GivenBack(db: Db, o: Id, d: Id): int {
    if o in db.orders && db.orders[o].status == Cancelled then QtyOf(db.orders[o].items, d) else 0
  }

  lemma ApplyReturns(db: Db, op: Op, o: Id, d: Id)
    requires Apply(db, op).Ok?
    ensures var after := Apply(db, op).value;
            GivenBack(after, o, d) == GivenBack(db, o, d)
              + if MovedOrder(op) == Some(o) then Stock(after, d) - Stock(db, d) else 0
  {
    if op.Checkout? {
      CheckoutEffect(db, op, d);
    } else if op.IsOrderOp() {
      MoveEffect(db, op, d);
    } else {
      MenuStock(db, op, d);
    }
    hide Apply, QtyOf;
  }

  /** Refund once: along any history, with any number of competing cancellations, the units returned
      for an order are its quantities exactly if it ended cancelled, and none otherwise. */
  lemma {:induction false} RefundedOnce(init: Db, ops: seq<Op>, log: seq<nat>, o: Id, d: Id)
    requires InRange(ops, log) && Replay(init, ops, log).Some?
    ensures GivenBack(Replay(init, ops, log).value, o, d) == GivenBack(init, o, d) + Returned(init, ops, log, o, d)
  {
    if log != [] {
      var before := ReplayPrefix(init, ops, log);
      RefundedOnce(init, ops, log[..|log| - 1], o, d);
      ApplyReturns(before, ops[log[|log| - 1]], o, d);
      hide Apply, GivenBack, Stock;
    }
  }

  /** An order whose trail passes through ready is never refunded, before or after. */
  lemma ReadyNeverRefunded(init: Db, ops: seq<Op>, log: seq<nat>, o: Id, k: nat, d: Id)
    requires WellFormed(init) && InRange(ops, log) && Replay(init, ops, log).Some?
    requires o in Replay(init, ops, log).value.orders && k < |Replay(init, ops, log).value.orders[o].history|
    requires Replay(init, ops, log).value.orders[o].history[k].to == Ready
    ensures Returned(init, ops, log, o, d) == 0
  {
    var db := Replay(init, ops, log).value;
    ReplayKeeps(init, ops, log);
    assert OrderOk(db.orders[o], db.dishes);
    ReadyStays(db.orders[o], k);
    RefundedOnce(init, ops, log, o, d);
    assert log[..0] == [] && Replay(init, ops, log[..0]) == Some(init);
    ReceiptsFrozen(init, ops, log, 0, o);
    hide WellFormed, OrderOk, Replay, Returned, QtyOf;
  }

  /** A cancellation that its caller may make and the lifecycle allows. */
  predicate Cancels(db: Db, op: Op) {
    match op
    case CustomerCancel(user, o, _) =>
      && o != NIL && user != NIL && o in db.orders && db.orders[o].user == user
      && CanBeCancelledBy(db.orders[o].status, Customer)
    case ChangeStatus(restaurant, o, status, _) =>
      && o != NIL && restaurant != NIL && o in db.orders && db.orders[o].restaurant == restaurant
      && status == Cancelled && CanBeCancelledBy(db.orders[o].status, Restaurant)
    case _ => false
  }

  /** Every line of every order names a dish of the order's restaurant, deletions included, so a
      permitted cancellation fails exactly when a refunded stock no longer fits its int4 column. */
  lemma CancellationVerdict(db: Db, op: Op)
    requires WellFormed(db) && Cancels(db, op)
    ensures var items := db.orders[op.order].items;
            var fits := forall i :: 0 <= i < |items| ==>
                          items[i].dish in db.dishes && db.dishes[items[i].dish].stock + items[i].qty <= INT4_MAX;
            && (forall i :: 0 <= i < |items| ==>
                  items[i].dish in db.dishes
                  && db.dishes[items[i].dish].restaurant == db.orders[op.order].restaurant)
            && (Apply(db, op).Ok? <==> fits)
            && (!fits ==> Apply(db, op) == Err(InvalidInput))
  {
    var items := db.orders[op.order].items;
    assert OrderOk(db.orders[op.order], db.dishes);
    RefundFaultNone(db.dishes, items);
    RefundFaultKind(db.dishes, items);
  }

  lemma {:induction false} RefundFaultKind(dishes: map<Id, Dish>, items: seq<OrderItem>)
    requires forall i :: 0 <= i < |items| ==> items[i].dish in dishes
    ensures RefundFault(dishes, items).Some? ==> RefundFault(dishes, items).value == InvalidInput
  {
    if items != [] {
      RefundFaultKind(dishes, items[..|items| - 1]);
    }
  }

  // ---------- totals ----------

  lemma {:induction false} ExactTotalPositive(items: seq<OrderItem>)
    requires forall i :: 0 <= i < |items| ==> items[i].price >= 0 && items[i].qty > 0
    ensures ExactTotal(items) >= 0
  {
    if items != [] {
      ExactTotalPositive(items[..|items| - 1]);
    }
  }

  /** A checkout whose lines are all in order and whose identifier is new. */
  ghost predicate Sellable(db: Db, op: Op)
    requires op.Checkout?
  {
    var want := Wanted(op.input.lines);
    && EntryFault(op.input, op.sample).None? && want.Keys <= db.dishes.Keys
    && LinesFault(FetchWanted(db.dishes, want), op.input.restaurant, want).None?
    && op.orderId !in db.orders
  }

  function Bill(db: Db, op: Op): int
    requires op.Checkout? && Wanted(op.input.lines).Keys <= db.dishes.Keys
  {
    var want := Wanted(op.input.lines);
    ExactTotal(Receipt(FetchWanted(db.dishes, want), want))
  }

  /** The stored total of an accepted order is the exact bill modulo 2^64. The order is accepted when
      that residue is not negative as an int64, and its total is exact when the bill is below 2^63;
      for bills below 2^64 the two conditions are the same. */
  lemma TotalVerdict(db: Db, op: Op)
    requires WellFormed(db) && op.Checkout? && Sellable(db, op)
    ensures var bill := Bill(db, op);
            && bill >= 0
            && (Apply(db, op).Ok? <==> bill % INT64_SPAN < INT64_HALF)
            && (!Apply(db, op).Ok? ==> Apply(db, op) == Err(InvalidInput))
            && (Apply(db, op).Ok? ==>
                  op.orderId in Apply(db, op).value.orders
                  && var total := Apply(db, op).value.orders[op.orderId].total;
                     total == bill % INT64_SPAN && (total == bill <==> bill < INT64_HALF))
            && (bill < INT64_SPAN ==> (Apply(db, op).Ok? <==> bill < INT64_HALF))
  {
    var want := Wanted(op.input.lines);
    var rows := FetchWanted(db.dishes, want);
    ReceiptRows(rows, want);
    WantedPositive(op.input);
    forall i | 0 <= i < |rows| ensures rows[i].dish.price >= 0 && want[rows[i].id] > 0 {
      assert DishOk(db.categories, db.dishes[rows[i].id]);
    }
    ExactTotalPositive(Receipt(rows, want));
    WrapPositive(Bill(db, op));
    hide WellFormed, Wrap64, ExactTotal, LinesFault, Restock, EntryFault, Wanted;
  }

  lemma WrapPositive(x: int)
    requires x >= 0
    ensures Wrap64(x) >= 0 <==> x % INT64_SPAN < INT64_HALF
    ensures Wrap64(x) >= 0 ==> Wrap64(x) == x % INT64_SPAN
    ensures x % INT64_SPAN == x <==> x < INT64_SPAN
  {
  }

  /** Four units of one dish whose price is 2^62. */
  const DEAR: Dish := Dish(1, 2, "", "", 0x4000_0000_0000_0000, 10, true)
  const DEAR_MENU: Db := Db(map[2 := Category(1, "")], map[3 := DEAR], map[])
  const DEAR_ORDER: Op := Checkout(CheckoutInput(4, 1, [Line(3, 4)], "a", ""), 5, Some(RestaurantRow(true, "")))

  lemma DearRows()
    ensures Wanted(DEAR_ORDER.input.lines) == map[3 := 4]
    ensures FetchWanted(DEAR_MENU.dishes, map[3 := 4]) == [Fetched(3, DEAR)]
  {
    assert DEAR_ORDER.input.lines[..0] == [];
    var want: map<Id, int> := map[3 := 4];
    var rows := FetchWanted(DEAR_MENU.dishes, want);
    assert want.Keys == {3};
    AscendingIs({3});
    assert |rows| == |Ids(rows)| == 1;
    assert Ids(rows)[0] in Ascending({3});
  }

  lemma DearBill(rows: seq<Fetched>, want: map<Id, int>)
    requires rows == [Fetched(3, DEAR)] && want == map[3 := 4]
    ensures LinesFault(rows, 1, want).None? && ExactTotal(Receipt(rows, want)) == INT64_SPAN
  {
    assert rows[..0] == [];
    var items := Receipt(rows, want);
    assert items[..0] == [];
  }

  /** The bound is needed: four units at 2^62 bill 2^64, wrap to nothing and are sold for free. */
  lemma OverflowSold()
    ensures WellFormed(DEAR_MENU) && Sellable(DEAR_MENU, DEAR_ORDER) && Bill(DEAR_MENU, DEAR_ORDER) == INT64_SPAN
    ensures Apply(DEAR_MENU, DEAR_ORDER).Ok?
    ensures 5 in Apply(DEAR_MENU, DEAR_ORDER).value.orders && Apply(DEAR_MENU, DEAR_ORDER).value.orders[5].total == 0
  {
    assert ValidLines(DEAR_ORDER.input.lines);
    assert DEAR_ORDER.input.address[0] == 'a';
    DearRows();
    DearBill([Fetched(3, DEAR)], map[3 := 4]);
    hide FetchWanted, Wanted, ExactTotal, LinesFault, Receipt;
    TotalVerdict(DEAR_MENU, DEAR_ORDER);
  }
}
