/** Stock as a ledger: what the shelf holds plus what live orders hold only ever moves by the
    partner's own edits, over every serial history of calls. */
module Ledger {
  import opened Domain
  import opened Spec
  import opened Tables

  // ---------- sums over a table ----------

  ghost function Sum(m: map<Id, int>): int
    decreases |m|
  {
    if m == map[] then 0
    else
      var k :| k in m;
      m[k] + Sum(m - {k})
  }

  /** A sum may be taken in any order. */
  lemma {:induction false} SumSplit(m: map<Id, int>, k: Id)
    requires k in m
    ensures Sum(m) == m[k] + Sum(m - {k})
    decreases |m|
  {
    var x :| x in m && Sum(m) == m[x] + Sum(m - {x});
    if x != k {
      SumSplit(m - {x}, k);
      SumSplit(m - {k}, x);
      assert m - {x} - {k} == m - {k} - {x};
    }
  }

  lemma SumUpdate(m: map<Id, int>, k: Id, v: int)
    ensures Sum(m[k := v]) == Sum(m) - (if k in m then m[k] else 0) + v
  {
    SumSplit(m[k := v], k);
    assert m[k := v] - {k} == m - {k};
    if k in m {
      SumSplit(m, k);
    } else {
      assert m - {k} == m;
    }
  }

  // ---------- what orders hold ----------

  /** Units of dish d that an order keeps away from the shelf. */
  function HeldOf(order: Order, d: Id): int {
    if order.status == Cancelled then 0 else QtyOf(order.items, d)
  }

  function Holdings(orders: map<Id, Order>, d: Id): map<Id, int> {
    map o | o in orders :: HeldOf(orders[o], d)
  }

  ghost function Held(orders: map<Id, Order>, d: Id): int {
    Sum(Holdings(orders, d))
  }

  lemma HeldUpdate(orders: map<Id, Order>, o: Id, order: Order, d: Id)
    ensures Held(orders[o := order], d) ==
            Held(orders, d) - (if o in orders then HeldOf(orders[o], d) else 0) + HeldOf(order, d)
  {
    SumUpdate(Holdings(orders, d), o, HeldOf(order, d));
    assert Holdings(orders[o := order], d) == Holdings(orders, d)[o := HeldOf(order, d)];
  }

  /** Units on the shelf; a dish that is not on the menu has none. */
  function Stock(db: Db, d: Id): int {
    if d in db.dishes then db.dishes[d].stock else 0
  }

  /** How many units of dish d a partner call puts on the shelf or takes off it. */
  function StockEdit(db: Db, op: Op, d: Id): int {
    match op
    case AddItem(item, dish) => if item == d then dish.stock else 0
    case EditItem(_, item, patch) =>
      if item == d && patch.stock.Some? then patch.stock.value - Stock(db, d) else 0
    case DropItem(_, item) => if item == d then -Stock(db, d) else 0
    case _ => 0
  }

  // ---------- one call ----------

  function Asked(op: Op, d: Id): int
    requires op.Checkout?
  {
    var want := Wanted(op.input.lines);
    if d in want then want[d] else 0
  }

  /** An accepted checkout takes exactly the requested quantities off the shelf, touches nothing
      else of any dish, and adds exactly its order. */
  lemma CheckoutEffect(db: Db, op: Op, d: Id)
    requires op.Checkout? && Apply(db, op).Ok?
    ensures var after := Apply(db, op).value;
            && after.categories == db.categories && after.dishes.Keys == db.dishes.Keys
            && (d in db.dishes ==>
                  after.dishes[d] == db.dishes[d].(stock := db.dishes[d].stock - Asked(op, d)))
            && op.orderId !in db.orders && op.orderId in after.orders
            && after.orders == db.orders[op.orderId := after.orders[op.orderId]]
            && QtyOf(after.orders[op.orderId].items, d) == Asked(op, d)
            && after.orders[op.orderId].status == Created
            && Wanted(op.input.lines).Keys <= db.dishes.Keys
  {
    var want := Wanted(op.input.lines);
    ReceiptQty(FetchWanted(db.dishes, want), want, d);
    hide QtyOf, LinesFault, ExactTotal, Wrap64, EntryFault, Ascending;
  }

  /** The order a status call names, if it is one. */
  function MovedOrder(op: Op): Option<Id> {
    match op
    case ChangeStatus(_, order, _, _) => Some(order)
    case CustomerCancel(_, order, _) => Some(order)
    case _ => None
  }

  /** Units of dish d that order o stops holding. */
  function Released(db: Db, after: Db, o: Id, d: Id): int
    requires o in db.orders && o in after.orders
  {
    HeldOf(db.orders[o], d) - HeldOf(after.orders[o], d)
  }

  /** An accepted status call stamps its order and nothing else; the shelf gains the order's units
      exactly when the call cancels it. */
  lemma MoveEffect(db: Db, op: Op, d: Id)
    requires MovedOrder(op).Some? && Apply(db, op).Ok?
    ensures var after := Apply(db, op).value;
            var o := MovedOrder(op).value;
            && after.categories == db.categories && after.dishes.Keys == db.dishes.Keys
            && o in db.orders && o in after.orders && after.orders == db.orders[o := after.orders[o]]
            && after.orders[o].items == db.orders[o].items
            && db.orders[o].status != Cancelled
            && (d in db.dishes ==>
                  after.dishes[d] == db.dishes[d].(stock := db.dishes[d].stock + Released(db, after, o, d)))
            && (d !in db.dishes ==> Released(db, after, o, d) == 0)
  {
    var items := db.orders[MovedOrder(op).value].items;
    RefundFaultNone(db.dishes, items);
    if d !in db.dishes && RefundFault(db.dishes, items).None? {
      QtyOfAbsent(items, d);
    }
    hide QtyOf, RefundFault;
  }

  lemma MenuStock(db: Db, op: Op, d: Id)
    requires !op.IsOrderOp() && Apply(db, op).Ok?
    ensures var after := Apply(db, op).value;
            after.orders == db.orders && Stock(after, d) == Stock(db, d) + StockEdit(db, op, d)
  {
    hide NameTaken, CategoryUsed, DishOrdered, DishInRange, PatchInRange, CategoryOf;
  }

  /** Every accepted call conserves shelf plus holdings, up to the partner's own edit. */
  lemma ApplyConserves(db: Db, op: Op, d: Id)
    requires Apply(db, op).Ok?
    ensures var after := Apply(db, op).value;
            Stock(after, d) + Held(after.orders, d) == Stock(db, d) + Held(db.orders, d) + StockEdit(db, op, d)
  {
    var after := Apply(db, op).value;
    if op.Checkout? {
      CheckoutEffect(db, op, d);
      HeldUpdate(db.orders, op.orderId, after.orders[op.orderId], d);
      hide Apply, QtyOf, Held;
    } else if op.IsOrderOp() {
      var o := MovedOrder(op).value;
      MoveEffect(db, op, d);
      HeldUpdate(db.orders, o, after.orders[o], d);
      hide Apply, QtyOf, Held;
    } else {
      MenuStock(db, op, d);
    }
  }

  // ---------- a serial history ----------

  ghost predicate InRange(ops: seq<Op>, log: seq<nat>) {
    forall k :: 0 <= k < |log| ==> log[k] < |ops|
  }

  /** A history is a shorter history and one accepted call more. */
  lemma ReplayPrefix(init: Db, ops: seq<Op>, log: seq<nat>) returns (before: Db)
    requires InRange(ops, log) && log != [] && Replay(init, ops, log).Some?
    ensures InRange(ops, log[..|log| - 1]) && Replay(init, ops, log[..|log| - 1]) == Some(before)
    ensures Apply(before, ops[log[|log| - 1]]) == Ok(Replay(init, ops, log).value)
  {
    before := Replay(init, ops, log[..|log| - 1]).value;
    hide Apply;
  }

  /** Net partner edits to the stock of dish d along a history. */
  function NetEdits(init: Db, ops: seq<Op>, log: seq<nat>, d: Id): int
    requires InRange(ops, log)
  {
    if log == [] then 0
    else
      var n := |log| - 1;
      var before := Replay(init, ops, log[..n]);
      NetEdits(init, ops, log[..n], d) + (if before.Some? then StockEdit(before.value, ops[log[n]], d) else 0)
  }

  /** Stock conservation over every serial history. */
  lemma {:induction false} ReplayConserves(init: Db, ops: seq<Op>, log: seq<nat>, d: Id)
    requires InRange(ops, log) && Replay(init, ops, log).Some?
    ensures var db := Replay(init, ops, log).value;
            Stock(db, d) + Held(db.orders, d) == Stock(init, d) + Held(init.orders, d) + NetEdits(init, ops, log, d)
  {
    if log != [] {
      var before := ReplayPrefix(init, ops, log);
      ReplayConserves(init, ops, log[..|log| - 1], d);
      ApplyConserves(before, ops[log[|log| - 1]], d);
      hide Apply, Held, Stock, StockEdit;
    }
  }

  /** The schema's constraints, receipts, totals and audit chains hold along every serial history. */
  lemma {:induction false} ReplayKeeps(init: Db, ops: seq<Op>, log: seq<nat>)
    requires WellFormed(init) && InRange(ops, log) && Replay(init, ops, log).Some?
    ensures WellFormed(Replay(init, ops, log).value)
  {
    if log != [] {
      var before := ReplayPrefix(init, ops, log);
      ReplayKeeps(init, ops, log[..|log| - 1]);
      ApplyKeeps(before, ops[log[|log| - 1]]);
      hide Apply, WellFormed;
    }
  }
}
