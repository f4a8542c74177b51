/** What the committed tables satisfy between operations: the schema's constraints, and the audit
    chain that the lifecycle adds to them. Every accepted operation keeps all of it. */
module Tables {
  import opened Domain
  import opened Spec

  // ---------- receipts ----------

  function DishesOf(items: seq<OrderItem>): (ids: seq<Id>) {
    seq(|items|, i requires 0 <= i < |items| => items[i].dish)
  }

  /** Receipt lines come in ascending dish order, each dish once, each with a positive quantity. */
  ghost predicate ItemsOk(items: seq<OrderItem>) {
    && Ascends(DishesOf(items))
    && forall i :: 0 <= i < |items| ==> items[i].qty > 0 && items[i].price >= 0
  }

  lemma {:induction false} QtyOfAbsent(items: seq<OrderItem>, d: Id)
    requires forall i :: 0 <= i < |items| ==> items[i].dish != d
    ensures QtyOf(items, d) == 0
  {
    if items != [] {
      QtyOfAbsent(items[..|items| - 1], d);
    }
  }

  /** On a receipt without repeated dishes, each line's quantity is the dish's quantity. */
  lemma {:induction false} QtyOfLine(items: seq<OrderItem>, j: nat)
    requires j < |items| && Ascends(DishesOf(items))
    ensures QtyOf(items, items[j].dish) == items[j].qty
  {
    var n := |items| - 1;
    var front := items[..n];
    assert forall i :: 0 <= i < n ==> DishesOf(front)[i] == DishesOf(items)[i];
    if j < n {
      QtyOfLine(front, j);
      assert DishesOf(items)[j] < DishesOf(items)[n];
    } else {
      forall i | 0 <= i < n ensures front[i].dish != items[n].dish {
        assert DishesOf(items)[i] < DishesOf(items)[n];
      }
      QtyOfAbsent(front, items[n].dish);
    }
  }

  lemma {:induction false} QtyOfNonNegative(items: seq<OrderItem>, d: Id)
    requires forall i :: 0 <= i < |items| ==> items[i].qty > 0
    ensures QtyOf(items, d) >= 0
  {
    if items != [] {
      QtyOfNonNegative(items[..|items| - 1], d);
    }
  }

  // ---------- the audit chain ----------

  /** A move the lifecycle tables allow this actor to make. */
  predicate LegalMove(from: Status, to: Status, actor: Actor) {
    if to == Cancelled then CanBeCancelledBy(from, actor)
    else actor == Restaurant && CanTransitionTo(from, to)
  }

  /** Consecutive entries link up by legal moves, starting from the system's entry into Created. */
  ghost predicate Chain(history: seq<Entry>) {
    && history != []
    && history[0] == Entry(None, Created, System)
    && forall k :: 0 < k < |history| ==>
         && history[k].from == Some(history[k - 1].to)
         && LegalMove(history[k - 1].to, history[k].to, history[k].actor)
  }

  ghost predicate HistoryOk(order: Order) {
    Chain(order.history) && order.history[|order.history| - 1].to == order.status
  }

  lemma StampKeepsHistory(order: Order, to: Status, actor: Actor)
    requires HistoryOk(order) && MoveFault(order, to, actor).None?
    requires actor == Restaurant || to == Cancelled
    ensures HistoryOk(Stamp(order, to, actor))
  {
    var next := Stamp(order, to, actor).history;
    forall k | 0 < k < |next|
      ensures next[k].from == Some(next[k - 1].to) && LegalMove(next[k - 1].to, next[k].to, next[k].actor)
    {
      if k < |order.history| {
        assert next[k] == order.history[k];
      }
    }
  }

  // ---------- the tables ----------

  ghost predicate DishOk(categories: map<Id, Category>, dish: Dish) {
    DishInRange(dish) && CategoryOf(categories, dish.category, dish.restaurant)
  }

  ghost predicate OrderOk(order: Order, dishes: map<Id, Dish>) {
    && ItemsOk(order.items)
    && (forall i :: 0 <= i < |order.items| ==>
          order.items[i].dish in dishes && dishes[order.items[i].dish].restaurant == order.restaurant)
    && order.total == Wrap64(ExactTotal(order.items)) && order.total >= 0
    && HistoryOk(order)
  }

  /** UNIQUE (restaurant_id, name). */
  ghost predicate NamesUnique(categories: map<Id, Category>) {
    forall b, c | b in categories && c in categories && b != c :: categories[b] != categories[c]
  }

  ghost predicate WellFormed(db: Db) {
    && NamesUnique(db.categories)
    && (forall d | d in db.dishes :: DishOk(db.categories, db.dishes[d]))
    && (forall o | o in db.orders :: OrderOk(db.orders[o], db.dishes))
  }

  // ---------- facts about an accepted checkout ----------

  lemma {:induction false} LinesFaultNone(rows: seq<Fetched>, restaurant: Id, want: map<Id, int>)
    requires RowsCovered(rows, want)
    ensures LinesFault(rows, restaurant, want).None? <==>
            forall i :: 0 <= i < |rows| ==> LineFault(rows[i].dish, restaurant, want[rows[i].id]).None?
  {
    if rows != [] {
      var n := |rows| - 1;
      LinesFaultNone(rows[..n], restaurant, want);
    }
  }

  lemma {:induction false} RefundFaultNone(dishes: map<Id, Dish>, items: seq<OrderItem>)
    ensures RefundFault(dishes, items).None? <==>
            forall i :: 0 <= i < |items| ==>
              items[i].dish in dishes && dishes[items[i].dish].stock + items[i].qty <= INT4_MAX
  {
    if items != [] {
      RefundFaultNone(dishes, items[..|items| - 1]);
    }
  }

  /** The first refusing row decides. */
  lemma {:induction false} FirstRefusal(rows: seq<Fetched>, restaurant: Id, want: map<Id, int>, k: nat)
    requires RowsCovered(rows, want) && k < |rows|
    requires forall j :: 0 <= j < k ==> LineFault(rows[j].dish, restaurant, want[rows[j].id]).None?
    requires LineFault(rows[k].dish, restaurant, want[rows[k].id]).Some?
    ensures LinesFault(rows, restaurant, want) == LineFault(rows[k].dish, restaurant, want[rows[k].id])
  {
    var n := |rows| - 1;
    if k < n {
      FirstRefusal(rows[..n], restaurant, want, k);
    } else {
      LinesFaultNone(rows[..n], restaurant, want);
    }
  }

  /** The first line that cannot be returned decides. */
  lemma {:induction false} FirstRefundFault(dishes: map<Id, Dish>, items: seq<OrderItem>, k: nat)
    requires k < |items|
    requires forall j :: 0 <= j < k ==>
               items[j].dish in dishes && dishes[items[j].dish].stock + items[j].qty <= INT4_MAX
    requires items[k].dish in dishes ==> dishes[items[k].dish].stock + items[k].qty > INT4_MAX
    ensures RefundFault(dishes, items) == Some(if items[k].dish in dishes then InvalidInput else MenuItemNotFound)
  {
    var n := |items| - 1;
    if k < n {
      FirstRefundFault(dishes, items[..n], k);
    } else {
      RefundFaultNone(dishes, items[..n]);
    }
  }

  /** The receipt built from locked rows has one line per row, in row order. */
  lemma ReceiptRows(rows: seq<Fetched>, want: map<Id, int>)
    requires RowsCovered(rows, want)
    ensures |Receipt(rows, want)| == |rows|
    ensures DishesOf(Receipt(rows, want)) == Ids(rows)
    ensures forall i :: 0 <= i < |rows| ==>
              Receipt(rows, want)[i] == ItemOf(rows[i], want[rows[i].id])
  {
  }

  lemma WantedPositive(input: CheckoutInput)
    requires InputFault(input).None?
    ensures |Wanted(input.lines)| == |input.lines| > 0
    ensures forall d | d in Wanted(input.lines) :: Wanted(input.lines)[d] > 0
  {
    WantedIsRequest(input.lines);
    forall d | d in Wanted(input.lines) ensures Wanted(input.lines)[d] > 0 {
      WantedDishes(input.lines, d);
    }
  }

  /** On a receipt whose rows are exactly the wanted dishes, quantities are the wanted ones. */
  lemma ReceiptQty(rows: seq<Fetched>, want: map<Id, int>, d: Id)
    requires RowsCovered(rows, want) && Ids(rows) == Ascending(want.Keys)
    ensures QtyOf(Receipt(rows, want), d) == if d in want then want[d] else 0
  {
    var items := Receipt(rows, want);
    ReceiptRows(rows, want);
    AscendingIs(want.Keys);
    if d in want {
      assert d in Ids(rows);
      var j :| 0 <= j < |rows| && Ids(rows)[j] == d;
      QtyOfLine(items, j);
    } else {
      forall i | 0 <= i < |items| ensures items[i].dish != d {
        assert Ids(rows)[i] in Ascending(want.Keys);
      }
      QtyOfAbsent(items, d);
    }
  }

  /** Current rows are determined by the dish table. */
  lemma RowsUnique(dishes: map<Id, Dish>, want: map<Id, int>, a: seq<Fetched>, b: seq<Fetched>)
    requires RowsCurrent(dishes, a, want) && RowsCurrent(dishes, b, want)
    ensures a == b
  {
    assert |a| == |Ids(a)| == |Ids(b)| == |b|;
    forall j | 0 <= j < |a| ensures a[j] == b[j] {
      assert a[j].id == Ids(a)[j] == Ids(b)[j] == b[j].id;
    }
  }

  /** The sequential checkout over current rows is the sale over those rows. */
  lemma CheckoutIsSale(db: Db, op: Op, rows: seq<Fetched>)
    requires op.Checkout? && EntryFault(op.input, op.sample).None?
    requires RowsCurrent(db.dishes, rows, Wanted(op.input.lines))
    ensures Apply(db, op) == Sale(db, op.input, op.orderId, rows, Wanted(op.input.lines))
  {
    var want := Wanted(op.input.lines);
    forall d | d in want ensures d in db.dishes {
      assert d in Ids(rows) by { AscendingIs(want.Keys); }
      var j :| 0 <= j < |rows| && Ids(rows)[j] == d;
      assert rows[j].id == d;
    }
    RowsUnique(db.dishes, want, rows, FetchWanted(db.dishes, want));
    hide RowsCurrent, Sale, EntryFault;
  }

  // ---------- every accepted operation keeps the tables well formed ----------

  lemma NewOrderOk(input: CheckoutInput, rows: seq<Fetched>, want: map<Id, int>, dishes: map<Id, Dish>)
    requires RowsCovered(rows, want) && Ids(rows) == Ascending(want.Keys)
    requires forall d | d in want :: want[d] > 0
    requires forall i :: 0 <= i < |rows| ==>
               rows[i].id in dishes && dishes[rows[i].id].restaurant == input.restaurant && rows[i].dish.price >= 0
    requires Wrap64(ExactTotal(Receipt(rows, want))) >= 0
    ensures var items := Receipt(rows, want);
            OrderOk(NewOrder(input, items, Wrap64(ExactTotal(items))), dishes)
  {
    ReceiptRows(rows, want);
    AscendingIs(want.Keys);
  }

  /** Stock taken out by lines that passed their checks stays in range, dish by dish. */
  lemma SoldDishOk(db: Db, rows: seq<Fetched>, want: map<Id, int>, restaurant: Id, d: Id)
    requires RowsCovered(rows, want) && Ids(rows) == Ascending(want.Keys)
    requires forall k | k in want :: want[k] > 0
    requires forall i :: 0 <= i < |rows| ==> rows[i].id in db.dishes && rows[i].dish == db.dishes[rows[i].id]
    requires LinesFault(rows, restaurant, want).None?
    requires d in db.dishes && DishOk(db.categories, db.dishes[d])
    ensures DishOk(db.categories, Restock(db.dishes, Receipt(rows, want), false)[d])
    ensures d in want ==> db.dishes[d].restaurant == restaurant
  {
    ReceiptQty(rows, want, d);
    LinesFaultNone(rows, restaurant, want);
    AscendingIs(want.Keys);
    hide Ascending, QtyOf, Receipt, LinesFault;
    if d in want {
      assert d in Ids(rows);
      var j :| 0 <= j < |rows| && Ids(rows)[j] == d;
      assert rows[j].dish == db.dishes[d];
    }
  }

  /** Order rows stay good while their dishes stay and keep their restaurant. */
  lemma OrdersStay(orders: map<Id, Order>, dishes: map<Id, Dish>, after: map<Id, Dish>)
    requires forall o | o in orders :: OrderOk(orders[o], dishes)
    requires forall d | d in dishes :: d in after && after[d].restaurant == dishes[d].restaurant
    ensures forall o | o in orders :: OrderOk(orders[o], after)
  {
    forall o | o in orders ensures OrderOk(orders[o], after) {
      assert OrderOk(orders[o], dishes);
    }
  }

  lemma SaleKeeps(db: Db, input: CheckoutInput, orderId: Id, rows: seq<Fetched>, want: map<Id, int>)
    requires WellFormed(db) && RowsCurrent(db.dishes, rows, want)
    requires forall k | k in want :: want[k] > 0
    requires Sale(db, input, orderId, rows, want).Ok?
    ensures WellFormed(Sale(db, input, orderId, rows, want).value)
  {
    var items := Receipt(rows, want);
    var after := Restock(db.dishes, items, false);
    forall d | d in db.dishes
      ensures DishOk(db.categories, after[d])
      ensures d in want ==> after[d].restaurant == input.restaurant && db.dishes[d].price >= 0
    {
      assert DishOk(db.categories, db.dishes[d]);
      SoldDishOk(db, rows, want, input.restaurant, d);
    }
    assert forall i :: 0 <= i < |rows| ==> rows[i].id in want;
    NewOrderOk(input, rows, want, after);
    OrdersStay(db.orders, db.dishes, after);
  }

  lemma CheckoutKeeps(db: Db, input: CheckoutInput, orderId: Id, sample: Option<RestaurantRow>)
    requires WellFormed(db) && CheckoutSpec(db, input, orderId, sample).Ok?
    ensures WellFormed(CheckoutSpec(db, input, orderId, sample).value)
  {
    var want := Wanted(input.lines);
    WantedPositive(input);
    SaleKeeps(db, input, orderId, FetchWanted(db.dishes, want), want);
  }

  lemma MoveKeepsDishes(db: Db, id: Id, to: Status, actor: Actor)
    requires WellFormed(db) && id in db.orders && MoveSpec(db, id, to, actor).Ok?
    ensures var after := MoveSpec(db, id, to, actor).value;
            forall d | d in after.dishes :: DishOk(after.categories, after.dishes[d])
  {
    var order := db.orders[id];
    var after := MoveSpec(db, id, to, actor).value;
    assert OrderOk(order, db.dishes);
    RefundFaultNone(db.dishes, order.items);
    forall d | d in after.dishes ensures DishOk(after.categories, after.dishes[d]) {
      assert DishOk(db.categories, db.dishes[d]);
      if to == Cancelled {
        if j :| 0 <= j < |order.items| && order.items[j].dish == d {
          QtyOfLine(order.items, j);
        } else {
          QtyOfAbsent(order.items, d);
        }
      }
    }
  }

  /** A stamped order is as good as it was. */
  lemma StampedOk(order: Order, to: Status, actor: Actor, dishes: map<Id, Dish>)
    requires OrderOk(order, dishes) && MoveFault(order, to, actor).None?
    requires actor == Restaurant || to == Cancelled
    ensures OrderOk(Stamp(order, to, actor), dishes)
  {
    StampKeepsHistory(order, to, actor);
    hide HistoryOk, ItemsOk, ExactTotal, Wrap64;
  }

  lemma MoveKeeps(db: Db, id: Id, to: Status, actor: Actor)
    requires WellFormed(db) && id in db.orders && MoveSpec(db, id, to, actor).Ok?
    requires actor == Restaurant || to == Cancelled
    ensures WellFormed(MoveSpec(db, id, to, actor).value)
  {
    var after := MoveSpec(db, id, to, actor).value;
    MoveKeepsDishes(db, id, to, actor);
    assert after.categories == db.categories && after.orders == db.orders[id := Stamp(db.orders[id], to, actor)];
    assert after.dishes.Keys == db.dishes.Keys;
    assert forall d | d in db.dishes :: after.dishes[d].restaurant == db.dishes[d].restaurant;
    assert MoveFault(db.orders[id], to, actor).None?;
    hide DishOk, OrderOk, RefundFault, Restock, QtyOf, MoveSpec, MoveFault, Stamp;
    OrdersStay(db.orders, db.dishes, after.dishes);
    StampedOk(db.orders[id], to, actor, after.dishes);
  }

  lemma NamesStayUnique(db: Db, op: Op)
    requires NamesUnique(db.categories) && !op.IsOrderOp() && Statement(db, op).Ok?
    ensures NamesUnique(Statement(db, op).value.categories)
  {
    hide CategoryUsed, DishOrdered, DishInRange;
  }

  lemma MenuKeepsDishes(db: Db, op: Op)
    requires WellFormed(db) && !op.IsOrderOp() && Statement(db, op).Ok?
    ensures var after := Statement(db, op).value;
            forall d | d in after.dishes :: DishOk(after.categories, after.dishes[d])
  {
    var after := Statement(db, op).value;
    forall d | d in after.dishes ensures DishOk(after.categories, after.dishes[d]) {
      if d in db.dishes {
        assert DishOk(db.categories, db.dishes[d]);
      }
    }
  }

  lemma MenuKeepsOrders(db: Db, op: Op)
    requires WellFormed(db) && !op.IsOrderOp() && Statement(db, op).Ok?
    ensures var after := Statement(db, op).value;
            forall o | o in after.orders :: OrderOk(after.orders[o], after.dishes)
  {
    var after := Statement(db, op).value;
    hide DishOk, NameTaken, CategoryUsed;
    forall o | o in after.orders ensures OrderOk(after.orders[o], after.dishes) {
      assert OrderOk(db.orders[o], db.dishes);
      if op.DropItem? {
        assert !Mentions(db.orders[o], op.item);
      }
    }
  }

  lemma MenuKeeps(db: Db, op: Op)
    requires WellFormed(db) && !op.IsOrderOp() && Statement(db, op).Ok?
    ensures WellFormed(Statement(db, op).value)
  {
    NamesStayUnique(db, op);
    MenuKeepsDishes(db, op);
    MenuKeepsOrders(db, op);
    hide DishOk, OrderOk, NamesUnique, Statement;
  }

  /** CHECK constraints, foreign keys, receipts, totals and audit chains survive every accepted call. */
  lemma ApplyKeeps(db: Db, op: Op)
    requires WellFormed(db) && Apply(db, op).Ok?
    ensures WellFormed(Apply(db, op).value)
  {
    match op
    case Checkout(input, orderId, sample) => CheckoutKeeps(db, input, orderId, sample);
    case ChangeStatus(_, id, to, _) => MoveKeeps(db, id, to, Restaurant);
    case CustomerCancel(_, id, _) => MoveKeeps(db, id, Cancelled, Customer);
    case _ => MenuKeeps(db, op);
  }
}
