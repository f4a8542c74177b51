/** The verdict on a checkout over the request and the rows it names: when it is accepted, which check
    refuses it otherwise, and what an accepted one writes. */
module CheckoutVerdict {
  import opened Domain
  import opened Spec
  import opened Tables

  // ---------- the request and its rows ----------

  /** There is a customer, a restaurant and somewhere to deliver to, and the texts fit. */
  ghost predicate Addressed(input: CheckoutInput) {
    && input.user != 0 && input.restaurant != 0
    && (exists k :: 0 <= k < |input.address| && !IsSpace(input.address[k]))
    && ByteLen(input.address) <= 500 && ByteLen(input.comment) <= 1000
  }

  /** Every line asks for some of a dish, and no dish is asked for twice. */
  ghost predicate LinesInOrder(lines: seq<Line>) {
    && (forall k :: 0 <= k < |lines| ==> lines[k].dish != 0 && lines[k].qty > 0)
    && (forall j, k :: 0 <= j < k < |lines| ==> lines[j].dish != lines[k].dish)
  }

  ghost predicate AllThere(db: Db, lines: seq<Line>) {
    forall k :: 0 <= k < |lines| ==> lines[k].dish in db.dishes
  }

  /** The restaurant can sell what the line asks for. */
  ghost predicate CanSell(dish: Dish, restaurant: Id, qty: int) {
    dish.restaurant == restaurant && dish.available && dish.stock >= qty
  }

  ghost predicate AllSellable(db: Db, op: Op)
    requires op.Checkout? && AllThere(db, op.input.lines)
  {
    forall k :: 0 <= k < |op.input.lines| ==>
      CanSell(db.dishes[op.input.lines[k].dish], op.input.restaurant, op.input.lines[k].qty)
  }

  /** What the lines cost at the menu's prices, line by line as they were sent. */
  function Cost(dishes: map<Id, Dish>, lines: seq<Line>): int
    requires forall k :: 0 <= k < |lines| ==> lines[k].dish in dishes
  {
    if lines == [] then 0
    else
      var n := |lines| - 1;
      Cost(dishes, lines[..n]) + dishes[lines[n].dish].price * lines[n].qty
  }

  /** The checkout's own condition: request, restaurant, rows, bill and identifier. */
  ghost predicate Accepts(db: Db, op: Op)
    requires op.Checkout?
  {
    && Addressed(op.input) && op.input.lines != [] && LinesInOrder(op.input.lines)
    && op.sample.Some? && op.sample.value.active
    && AllThere(db, op.input.lines) && AllSellable(db, op)
    && Cost(db.dishes, op.input.lines) % 0x1_0000_0000_0000_0000 < 0x8000_0000_0000_0000
    && op.orderId !in db.orders
  }

  // ---------- the rows in id order and the lines as sent ----------

  lemma InputIsJudged(input: CheckoutInput)
    ensures !Addressed(input) ==> InputFault(input) == Some(InvalidInput)
    ensures Addressed(input) && input.lines == [] ==> InputFault(input) == Some(EmptyOrder)
    ensures Addressed(input) && input.lines != [] && !LinesInOrder(input.lines) ==>
              InputFault(input) == Some(InvalidInput)
    ensures Addressed(input) && input.lines != [] && LinesInOrder(input.lines) ==> InputFault(input).None?
  {
  }

  /** The position of a requested dish among the locked rows. */
  lemma RowOfLine(rows: seq<Fetched>, lines: seq<Line>, k: nat) returns (j: nat)
    requires LinesInOrder(lines) && k < |lines| && Ids(rows) == Ascending(Wanted(lines).Keys)
    ensures j < |rows| && rows[j].id == lines[k].dish
    ensures rows[j].id in Wanted(lines) && Wanted(lines)[rows[j].id] == lines[k].qty
  {
    WantedIsRequest(lines);
    AscendingIs(Wanted(lines).Keys);
    assert lines[k].dish in Ids(rows);
    j :| 0 <= j < |rows| && Ids(rows)[j] == lines[k].dish;
  }

  /** The line that asks for a locked row. */
  lemma LineOfRow(rows: seq<Fetched>, lines: seq<Line>, j: nat) returns (k: nat)
    requires LinesInOrder(lines) && j < |rows| && Ids(rows) == Ascending(Wanted(lines).Keys)
    ensures k < |lines| && lines[k].dish == rows[j].id
    ensures rows[j].id in Wanted(lines) && Wanted(lines)[rows[j].id] == lines[k].qty
  {
    WantedIsRequest(lines);
    AscendingIs(Wanted(lines).Keys);
    assert Ids(rows)[j] in Wanted(lines);
    WantedDishes(lines, rows[j].id);
    k :| 0 <= k < |lines| && lines[k].dish == rows[j].id;
  }

  lemma WantedThere(db: Db, lines: seq<Line>)
    ensures AllThere(db, lines) <==> Wanted(lines).Keys <= db.dishes.Keys
  {
    forall k | 0 <= k < |lines| ensures lines[k].dish in Wanted(lines) {
      WantedDishes(lines, lines[k].dish);
    }
    forall d | d in Wanted(lines) ensures exists k :: 0 <= k < |lines| && lines[k].dish == d {
      WantedDishes(lines, d);
    }
  }

  lemma LineFaultIs(dish: Dish, restaurant: Id, qty: int)
    ensures LineFault(dish, restaurant, qty).None? <==> CanSell(dish, restaurant, qty)
    ensures dish.restaurant != restaurant ==> LineFault(dish, restaurant, qty) == Some(RestaurantMismatch)
    ensures dish.restaurant == restaurant && !dish.available ==>
              LineFault(dish, restaurant, qty) == Some(ItemUnavailable)
    ensures dish.restaurant == restaurant && dish.available && dish.stock < qty ==>
              LineFault(dish, restaurant, qty) == Some(OutOfStock)
  {
  }

  /** No row refuses its line exactly when every line can be sold. */
  lemma NoneRefused(db: Db, op: Op, rows: seq<Fetched>)
    requires op.Checkout? && LinesInOrder(op.input.lines) && AllThere(db, op.input.lines)
    requires RowsCurrent(db.dishes, rows, Wanted(op.input.lines))
    ensures LinesFault(rows, op.input.restaurant, Wanted(op.input.lines)).None? <==> AllSellable(db, op)
  {
    var lines, want := op.input.lines, Wanted(op.input.lines);
    LinesFaultNone(rows, op.input.restaurant, want);
    hide LinesFault, Wanted, Ascending;
    if AllSellable(db, op) {
      forall j | 0 <= j < |rows| ensures LineFault(rows[j].dish, op.input.restaurant, want[rows[j].id]).None? {
        var k := LineOfRow(rows, lines, j);
      }
    }
    if LinesFault(rows, op.input.restaurant, want).None? {
      forall k | 0 <= k < |lines| ensures CanSell(db.dishes[lines[k].dish], op.input.restaurant, lines[k].qty) {
        var j := RowOfLine(rows, lines, k);
        assert LineFault(rows[j].dish, op.input.restaurant, want[rows[j].id]).None?;
      }
    }
  }

  // ---------- the bill ----------

  /** One dish's part of the bill. */
  function Part(dishes: map<Id, Dish>, want: map<Id, int>, d: Id): int {
    if d in dishes && d in want then dishes[d].price * want[d] else 0
  }

  function Parts(dishes: map<Id, Dish>, want: map<Id, int>, ids: seq<Id>): int {
    if ids == [] then 0 else Parts(dishes, want, ids[..|ids| - 1]) + Part(dishes, want, ids[|ids| - 1])
  }

  lemma {:induction false} PartsWithout(dishes: map<Id, Dish>, want: map<Id, int>, ids: seq<Id>, j: nat)
    requires j < |ids|
    ensures Parts(dishes, want, ids) == Parts(dishes, want, ids[..j] + ids[j + 1..]) + Part(dishes, want, ids[j])
  {
    var n := |ids| - 1;
    hide Part;
    if j < n {
      PartsWithout(dishes, want, ids[..n], j);
      var rest := ids[..j] + ids[j + 1..];
      assert rest[..|rest| - 1] == ids[..n][..j] + ids[..n][j + 1..];
    } else {
      assert ids[..j] + ids[j + 1..] == ids[..n];
    }
  }

  ghost predicate Once(ids: seq<Id>) {
    forall i, j :: 0 <= i < j < |ids| ==> ids[i] != ids[j]
  }

  /** Taking one element out of two lists of the same elements leaves the same elements. */
  lemma SameRest(a: seq<Id>, b: seq<Id>, j: nat, d: Id)
    requires Once(a) && Once(b) && a != [] && j < |b| && b[j] == a[|a| - 1] && (d in a <==> d in b)
    ensures d in a[..|a| - 1] <==> d in b[..j] + b[j + 1..]
  {
    assert a == a[..|a| - 1] + [b[j]] && b == b[..j] + [b[j]] + b[j + 1..];
  }

  /** The order in which the parts are added up does not matter. */
  lemma {:induction false} PartsPermute(dishes: map<Id, Dish>, want: map<Id, int>, a: seq<Id>, b: seq<Id>)
    requires Once(a) && Once(b) && forall d :: d in a <==> d in b
    ensures Parts(dishes, want, a) == Parts(dishes, want, b)
  {
    hide Part;
    assert b != [] ==> b[0] in a;
    if a != [] {
      var n := |a| - 1;
      assert a[n] in b;
      var j :| 0 <= j < |b| && b[j] == a[n];
      var rest := b[..j] + b[j + 1..];
      forall d ensures d in a[..n] <==> d in rest {
        SameRest(a, b, j, d);
      }
      PartsPermute(dishes, want, a[..n], rest);
      PartsWithout(dishes, want, b, j);
    }
  }

  lemma {:induction false} ReceiptParts(dishes: map<Id, Dish>, rows: seq<Fetched>, want: map<Id, int>)
    requires RowsCovered(rows, want)
    requires forall i :: 0 <= i < |rows| ==> rows[i].id in dishes && rows[i].dish == dishes[rows[i].id]
    ensures ExactTotal(Receipt(rows, want)) == Parts(dishes, want, Ids(rows))
  {
    if rows != [] {
      var n := |rows| - 1;
      ReceiptParts(dishes, rows[..n], want);
      assert Receipt(rows, want)[..n] == Receipt(rows[..n], want);
      assert Ids(rows)[..n] == Ids(rows[..n]);
    }
  }

  function DishIds(lines: seq<Line>): (ids: seq<Id>) {
    seq(|lines|, k requires 0 <= k < |lines| => lines[k].dish)
  }

  lemma {:induction false} CostParts(dishes: map<Id, Dish>, want: map<Id, int>, lines: seq<Line>)
    requires forall k :: 0 <= k < |lines| ==>
               lines[k].dish in dishes && lines[k].dish in want && want[lines[k].dish] == lines[k].qty
    ensures Cost(dishes, lines) == Parts(dishes, want, DishIds(lines))
  {
    if lines != [] {
      var n := |lines| - 1;
      CostParts(dishes, want, lines[..n]);
      assert DishIds(lines)[..n] == DishIds(lines[..n]);
    }
  }

  lemma SameDishes(lines: seq<Line>, rows: seq<Fetched>)
    requires LinesInOrder(lines) && Ids(rows) == Ascending(Wanted(lines).Keys)
    ensures Once(Ids(rows)) && Once(DishIds(lines))
    ensures forall d :: d in Ids(rows) <==> d in DishIds(lines)
  {
    AscendingIs(Wanted(lines).Keys);
    forall d ensures d in Wanted(lines) <==> d in DishIds(lines) {
      WantedDishes(lines, d);
      if d in Wanted(lines) {
        var k :| 0 <= k < |lines| && lines[k].dish == d;
        assert DishIds(lines)[k] == d;
      }
    }
    hide Wanted, Ascending;
  }

  /** The receipt, in id order, bills what the lines, as sent, cost. */
  lemma BillIsCost(db: Db, lines: seq<Line>, rows: seq<Fetched>)
    requires LinesInOrder(lines) && AllThere(db, lines) && RowsCurrent(db.dishes, rows, Wanted(lines))
    ensures ExactTotal(Receipt(rows, Wanted(lines))) == Cost(db.dishes, lines)
  {
    var want := Wanted(lines);
    WantedIsRequest(lines);
    hide Wanted, Ascending, ExactTotal, Receipt, Cost, Parts;
    ReceiptParts(db.dishes, rows, want);
    CostParts(db.dishes, want, lines);
    SameDishes(lines, rows);
    PartsPermute(db.dishes, want, Ids(rows), DishIds(lines));
  }

  lemma WrapSign(x: int)
    ensures Wrap64(x) >= 0 <==> x % 0x1_0000_0000_0000_0000 < 0x8000_0000_0000_0000
    ensures Wrap64(x) >= 0 ==> Wrap64(x) == x % 0x1_0000_0000_0000_0000
  {
  }

  // ---------- the verdict ----------

  /** Past the request, the restaurant and the count of rows, the sale decides. */
  ghost predicate AtTheRows(db: Db, op: Op)
    requires op.Checkout?
  {
    && Addressed(op.input) && op.input.lines != [] && LinesInOrder(op.input.lines)
    && op.sample.Some? && op.sample.value.active && AllThere(db, op.input.lines)
  }

  lemma RowsDecide(db: Db, op: Op) returns (rows: seq<Fetched>)
    requires op.Checkout? && AtTheRows(db, op)
    ensures RowsCurrent(db.dishes, rows, Wanted(op.input.lines))
    ensures Apply(db, op) == Sale(db, op.input, op.orderId, rows, Wanted(op.input.lines))
  {
    InputIsJudged(op.input);
    WantedThere(db, op.input.lines);
    rows := FetchWanted(db.dishes, Wanted(op.input.lines));
    assert EntryFault(op.input, op.sample).None?;
    hide *;
    CheckoutIsSale(db, op, rows);
  }

  /** When a checkout is accepted: the request is in order, the restaurant exists and is active, every dish
      is there, is the restaurant's, is available and is left in the quantity asked for, the bill fits
      int64, and the order's identifier is new. */
  lemma CheckoutAccepted(db: Db, op: Op)
    requires op.Checkout?
    ensures Apply(db, op).Ok? <==> Accepts(db, op)
  {
    InputIsJudged(op.input);
    WantedThere(db, op.input.lines);
    if AtTheRows(db, op) {
      var rows := RowsDecide(db, op);
      NoneRefused(db, op, rows);
      BillIsCost(db, op.input.lines, rows);
      WrapSign(Cost(db.dishes, op.input.lines));
      hide RowsCurrent, LinesFault, ExactTotal, Receipt, Wanted, Wrap64, Cost, Apply, Addressed, LinesInOrder;
    } else {
      hide InputFault, Wanted, Sale, Addressed, LinesInOrder, AllThere;
    }
  }

  /** Which check speaks first: the request before the restaurant, the restaurant before the rows. */
  lemma EntryRefused(db: Db, op: Op)
    requires op.Checkout?
    ensures !Addressed(op.input) ==> Apply(db, op) == Err(InvalidInput)
    ensures Addressed(op.input) && op.input.lines == [] ==> Apply(db, op) == Err(EmptyOrder)
    ensures Addressed(op.input) && op.input.lines != [] && !LinesInOrder(op.input.lines) ==>
              Apply(db, op) == Err(InvalidInput)
    ensures Addressed(op.input) && op.input.lines != [] && LinesInOrder(op.input.lines) ==>
              && (op.sample.None? ==> Apply(db, op) == Err(RestaurantNotFound))
              && (op.sample.Some? && !op.sample.value.active ==> Apply(db, op) == Err(RestaurantInactive))
              && (op.sample.Some? && op.sample.value.active && !AllThere(db, op.input.lines) ==>
                    Apply(db, op) == Err(MenuItemNotFound))
  {
    InputIsJudged(op.input);
    WantedThere(db, op.input.lines);
    hide InputFault, Wanted, Sale, Addressed, LinesInOrder, AllThere;
  }

  /** Among the lines that cannot be sold the one with the smallest dish id speaks, whatever the order of the
      request: a foreign dish first, then an unavailable one, then one that has run short. */
  lemma FirstLineRefused(db: Db, op: Op, k: nat)
    requires op.Checkout? && AtTheRows(db, op) && k < |op.input.lines|
    requires var line := op.input.lines[k];
             && !CanSell(db.dishes[line.dish], op.input.restaurant, line.qty)
             && forall j :: 0 <= j < |op.input.lines| && op.input.lines[j].dish < line.dish ==>
                  CanSell(db.dishes[op.input.lines[j].dish], op.input.restaurant, op.input.lines[j].qty)
    ensures var dish := db.dishes[op.input.lines[k].dish];
            Apply(db, op) == Err(if dish.restaurant != op.input.restaurant then RestaurantMismatch
                                 else if !dish.available then ItemUnavailable
                                 else OutOfStock)
  {
    var lines, want, restaurant := op.input.lines, Wanted(op.input.lines), op.input.restaurant;
    var rows := RowsDecide(db, op);
    var i := RowOfLine(rows, lines, k);
    assert Ascends(Ids(rows)) by { AscendingIs(want.Keys); }
    hide Apply, Addressed, Wanted, Ascending, AllThere;
    forall j | 0 <= j < i ensures LineFault(rows[j].dish, restaurant, want[rows[j].id]).None? {
      assert Ids(rows)[j] < Ids(rows)[i];
      var m := LineOfRow(rows, lines, j);
      assert CanSell(db.dishes[lines[m].dish], restaurant, lines[m].qty);
    }
    LineFaultIs(rows[i].dish, restaurant, want[rows[i].id]);
    FirstRefusal(rows, restaurant, want, i);
  }

  /** With every line sellable only the bill and the identifier are left to refuse. */
  lemma BillRefused(db: Db, op: Op)
    requires op.Checkout? && AtTheRows(db, op) && AllSellable(db, op)
    ensures var fits := Cost(db.dishes, op.input.lines) % 0x1_0000_0000_0000_0000 < 0x8000_0000_0000_0000;
            && (!fits ==> Apply(db, op) == Err(InvalidInput))
            && (fits && op.orderId in db.orders ==> Apply(db, op) == Err(Conflict))
  {
    var rows := RowsDecide(db, op);
    NoneRefused(db, op, rows);
    BillIsCost(db, op.input.lines, rows);
    WrapSign(Cost(db.dishes, op.input.lines));
    hide RowsCurrent, LinesFault, ExactTotal, Receipt, Wanted, Wrap64, Cost, Apply, Addressed, LinesInOrder;
  }

  // ---------- what is written ----------

  /** The receipt line that a request line becomes: the dish's name and price at the sale. */
  function Written(db: Db, line: Line): OrderItem
    requires line.dish in db.dishes
  {
    OrderItem(line.dish, db.dishes[line.dish].name, db.dishes[line.dish].price, line.qty)
  }

  /** The order that an accepted checkout adds. */
  ghost predicate WrittenOrder(db: Db, op: Op, order: Order)
    requires op.Checkout? && AllThere(db, op.input.lines)
  {
    var lines := op.input.lines;
    && order.user == op.input.user && order.restaurant == op.input.restaurant && order.status == Created
    && order.history == [Entry(None, Created, System)]
    && order.total == Cost(db.dishes, lines) % 0x1_0000_0000_0000_0000
    && |order.items| == |lines|
    && (forall k :: 0 <= k < |lines| ==> Written(db, lines[k]) in order.items)
    && (forall j, k :: 0 <= j < k < |order.items| ==> order.items[j].dish < order.items[k].dish)
  }

  /** The shelf afterwards: every requested dish has its line's quantity less, nothing else has moved. */
  ghost predicate WrittenShelf(db: Db, op: Op, after: Db)
    requires op.Checkout? && AllThere(db, op.input.lines)
  {
    var lines := op.input.lines;
    && after.dishes.Keys == db.dishes.Keys
    && (forall k :: 0 <= k < |lines| ==>
          after.dishes[lines[k].dish]
          == db.dishes[lines[k].dish].(stock := db.dishes[lines[k].dish].stock - lines[k].qty))
    && (forall d | d in db.dishes && d !in DishIds(lines) :: after.dishes[d] == db.dishes[d])
  }

  lemma ReceiptIsWritten(db: Db, op: Op, rows: seq<Fetched>)
    requires op.Checkout? && LinesInOrder(op.input.lines) && AllThere(db, op.input.lines)
    requires RowsCurrent(db.dishes, rows, Wanted(op.input.lines))
    ensures var items, lines := Receipt(rows, Wanted(op.input.lines)), op.input.lines;
            && |items| == |lines|
            && (forall k :: 0 <= k < |lines| ==> Written(db, lines[k]) in items)
            && (forall j, k :: 0 <= j < k < |items| ==> items[j].dish < items[k].dish)
  {
    var lines, want := op.input.lines, Wanted(op.input.lines);
    var items := Receipt(rows, want);
    WantedIsRequest(lines);
    AscendingIs(want.Keys);
    assert |Ids(rows)| == |rows|;
    hide Wanted, Ascending;
    forall k | 0 <= k < |lines| ensures Written(db, lines[k]) in items {
      var j := RowOfLine(rows, lines, k);
      assert items[j] == Written(db, lines[k]);
    }
    forall j, k | 0 <= j < k < |items| ensures items[j].dish < items[k].dish {
      assert Ids(rows)[j] < Ids(rows)[k];
    }
  }

  /** How much a receipt holds of each dish: its line's quantity, or nothing. */
  lemma ReceiptHolds(lines: seq<Line>, rows: seq<Fetched>, d: Id)
    requires LinesInOrder(lines) && RowsCovered(rows, Wanted(lines)) && Ids(rows) == Ascending(Wanted(lines).Keys)
    ensures d !in DishIds(lines) ==> QtyOf(Receipt(rows, Wanted(lines)), d) == 0
    ensures forall k :: 0 <= k < |lines| && lines[k].dish == d ==>
              QtyOf(Receipt(rows, Wanted(lines)), d) == lines[k].qty
  {
    ReceiptQty(rows, Wanted(lines), d);
    WantedIsRequest(lines);
    WantedDishes(lines, d);
    assert forall k :: 0 <= k < |lines| ==> DishIds(lines)[k] == lines[k].dish;
    hide Wanted, QtyOf, Receipt, Ascending;
  }

  lemma ShelfLine(db: Db, lines: seq<Line>, rows: seq<Fetched>, d: Id)
    requires LinesInOrder(lines) && RowsCovered(rows, Wanted(lines)) && Ids(rows) == Ascending(Wanted(lines).Keys)
    requires d in db.dishes
    ensures var now := Restock(db.dishes, Receipt(rows, Wanted(lines)), false);
            && (d !in DishIds(lines) ==> now[d] == db.dishes[d])
            && forall k :: 0 <= k < |lines| && lines[k].dish == d ==>
                 now[d] == db.dishes[d].(stock := db.dishes[d].stock - lines[k].qty)
  {
    ReceiptHolds(lines, rows, d);
    hide Wanted, QtyOf, Receipt, Ascending, DishIds;
  }

  lemma ShelfIsWritten(db: Db, op: Op, rows: seq<Fetched>)
    requires op.Checkout? && LinesInOrder(op.input.lines) && AllThere(db, op.input.lines)
    requires RowsCurrent(db.dishes, rows, Wanted(op.input.lines))
    ensures WrittenShelf(db, op, db.(dishes := Restock(db.dishes, Receipt(rows, Wanted(op.input.lines)), false)))
  {
    var lines := op.input.lines;
    var now := Restock(db.dishes, Receipt(rows, Wanted(lines)), false);
    assert now.Keys == db.dishes.Keys;
    hide Wanted, QtyOf, Receipt, Ascending, Restock, DishIds;
    forall d | d in db.dishes
      ensures d !in DishIds(lines) ==> now[d] == db.dishes[d]
      ensures forall k :: 0 <= k < |lines| && lines[k].dish == d ==>
                now[d] == db.dishes[d].(stock := db.dishes[d].stock - lines[k].qty)
    {
      ShelfLine(db, lines, rows, d);
    }
  }

  /** What a sale writes, over its receipt. */
  lemma SaleWrites(db: Db, op: Op, rows: seq<Fetched>)
    requires op.Checkout? && RowsCovered(rows, Wanted(op.input.lines))
    requires Sale(db, op.input, op.orderId, rows, Wanted(op.input.lines)).Ok?
    ensures var after := Sale(db, op.input, op.orderId, rows, Wanted(op.input.lines)).value;
            var items := Receipt(rows, Wanted(op.input.lines));
            && after == db.(dishes := Restock(db.dishes, items, false), orders := after.orders)
            && op.orderId !in db.orders && Wrap64(ExactTotal(items)) >= 0
            && after.orders == db.orders[op.orderId := NewOrder(op.input, items, Wrap64(ExactTotal(items)))]
  {
    hide Wanted, LinesFault, Receipt, ExactTotal, Wrap64, Restock;
  }

  /** What an accepted checkout leaves behind: the one new order, with every line at the name and price of
      its dish, and the shelf without the quantities sold. */
  lemma CheckoutWrites(db: Db, op: Op)
    requires op.Checkout? && Apply(db, op).Ok?
    ensures AllThere(db, op.input.lines)
    ensures var after := Apply(db, op).value;
            && after.categories == db.categories && WrittenShelf(db, op, after)
            && op.orderId !in db.orders && op.orderId in after.orders
            && after.orders == db.orders[op.orderId := after.orders[op.orderId]]
            && WrittenOrder(db, op, after.orders[op.orderId])
  {
    CheckoutAccepted(db, op);
    assert AtTheRows(db, op);
    assert LinesInOrder(op.input.lines) && AllThere(db, op.input.lines);
    var rows := RowsDecide(db, op);
    assert RowsCovered(rows, Wanted(op.input.lines));
    hide RowsCurrent, RowsCovered, Sale, LinesFault, ExactTotal, Receipt, Wanted, Wrap64, Cost, Apply, Addressed,
      LinesInOrder, Restock, Accepts, AtTheRows, Ascending;
    SaleWrites(db, op, rows);
    BillIsCost(db, op.input.lines, rows);
    WrapSign(Cost(db.dishes, op.input.lines));
    ReceiptIsWritten(db, op, rows);
    ShelfIsWritten(db, op, rows);
    ShelfAlone(db, Apply(db, op).value, op);
  }

  /** The shelf is the shelf whatever the orders are. */
  lemma ShelfAlone(db: Db, after: Db, op: Op)
    requires op.Checkout? && AllThere(db, op.input.lines) && WrittenShelf(db, op, db.(dishes := after.dishes))
    ensures WrittenShelf(db, op, after)
  {
  }
}
