/** The order service and the repositories it drives, statement by statement, on one connection. Each
    service method is proved to do to the tables exactly what the sequential specification says, or
    to leave them as they were. */
module OrderService {
  import opened Domain
  import opened Spec
  import opened Tables
  import opened Store
  import opened CheckoutVerdict
  import opened MoveVerdict

  // ---------- repositories ----------

  class MenuRepository {
    const db: Database

    constructor (db: Database)
      ensures this.db == db
    {
      this.db := db;
    }

    /** SELECT ... WHERE id = ANY(ids) ORDER BY id ASC FOR UPDATE: the rows that exist, by id. */
    method GetItemsByIDsForUpdate(ids: seq<Id>) returns (rows: seq<Fetched>)
      ensures var found := (set x | x in ids) * db.dishes.Keys;
              && |rows| == |found|
              && Ids(rows) == Ascending(found)
              && forall i :: 0 <= i < |rows| ==> rows[i].id in db.dishes && rows[i].dish == db.dishes[rows[i].id]
    {
      var found := (set x | x in ids) * db.dishes.Keys;
      AscendingIs(found);
      var order := Ascending(found);
      rows := [];
      for i := 0 to |order|
        invariant |rows| == i
        invariant forall j :: 0 <= j < i ==> rows[j].id == order[j] && order[j] in found
        invariant forall j :: 0 <= j < i ==> rows[j].dish == db.dishes[order[j]]
      {
        assert order[i] in found;
        rows := rows + [Fetched(order[i], db.dishes[order[i]])];
      }
    }

    /** The guarded UPDATE of a sale. */
    method DecrementStock(id: Id, qty: int) returns (fault: Option<Error>)
      requires db.Valid()
      modifies db`dishes, db`undo
      ensures db.Valid() && (db.open ==> db.Base() == old(db.Base()))
      ensures var sells := id in old(db.dishes) && old(db.dishes)[id].stock >= qty && old(db.dishes)[id].available;
              && fault == (if sells then None else Some(OutOfStock))
              && db.dishes == if sells then old(db.dishes)[id := old(db.dishes)[id].(stock := old(db.dishes)[id].stock - qty)]
                              else old(db.dishes)
    {
      if id !in db.dishes || db.dishes[id].stock < qty || !db.dishes[id].available {
        return Some(OutOfStock);
      }
      db.PutDish(id, db.dishes[id].(stock := db.dishes[id].stock - qty));
      return None;
    }

    /** The UPDATE of a refund; the int4 column refuses what it cannot hold. */
    method IncrementStock(id: Id, qty: int) returns (fault: Option<Error>)
      requires db.Valid()
      modifies db`dishes, db`undo
      ensures db.Valid() && (db.open ==> db.Base() == old(db.Base()))
      ensures fault == if id !in old(db.dishes) then Some(MenuItemNotFound)
                       else if old(db.dishes)[id].stock + qty > INT4_MAX then Some(InvalidInput)
                       else None
      ensures db.dishes == if fault.Some? then old(db.dishes)
                           else old(db.dishes)[id := old(db.dishes)[id].(stock := old(db.dishes)[id].stock + qty)]
    {
      if id !in db.dishes {
        return Some(MenuItemNotFound);
      }
      if db.dishes[id].stock + qty > INT4_MAX {
        return Some(InvalidInput);
      }
      db.PutDish(id, db.dishes[id].(stock := db.dishes[id].stock + qty));
      return None;
    }
  }

  class OrderRepository {
    const db: Database

    constructor (db: Database)
      ensures this.db == db
    {
      this.db := db;
    }

    /** INSERT of the order, its lines and the system's audit entry. */
    method CreateOrder(id: Id, order: Order) returns (fault: Option<Error>)
      requires db.Valid()
      modifies db`orders, db`undo
      ensures db.Valid() && (db.open ==> db.Base() == old(db.Base()))
      ensures fault == if order.total < 0 then Some(InvalidInput)
                       else if id in old(db.orders) then Some(Conflict) else None
      ensures db.orders == if fault.Some? then old(db.orders)
                           else old(db.orders)[id := order.(history := [Entry(None, order.status, System)])]
    {
      if order.total < 0 {
        return Some(InvalidInput);
      }
      if id in db.orders {
        return Some(Conflict);
      }
      db.PutOrder(id, order.(history := []));
      AddStatusHistory(id, Entry(None, order.status, System));
      assert [] + [Entry(None, order.status, System)] == [Entry(None, order.status, System)];
      return None;
    }

    method GetOrderForUpdate(id: Id) returns (order: Option<Order>)
      ensures order == if id in db.orders then Some(db.orders[id]) else None
    {
      order := if id in db.orders then Some(db.orders[id]) else None;
    }

    method UpdateOrderStatus(id: Id, status: Status) returns (fault: Option<Error>)
      requires db.Valid()
      modifies db`orders, db`undo
      ensures db.Valid() && (db.open ==> db.Base() == old(db.Base()))
      ensures fault == if id in old(db.orders) then None else Some(NotFound)
      ensures db.orders == if fault.Some? then old(db.orders)
                           else old(db.orders)[id := old(db.orders)[id].(status := status)]
    {
      if id !in db.orders {
        return Some(NotFound);
      }
      db.PutOrder(id, db.orders[id].(status := status));
      return None;
    }

    method AddStatusHistory(id: Id, entry: Entry)
      requires db.Valid() && id in db.orders
      modifies db`orders, db`undo
      ensures db.Valid() && (db.open ==> db.Base() == old(db.Base()))
      ensures var order := old(db.orders)[id];
              db.orders == old(db.orders)[id := order.(history := order.history + [entry])]
    {
      db.PutOrder(id, db.orders[id].(history := db.orders[id].history + [entry]));
    }
  }

  /** One event for a restaurant, with the order it is about. */
  datatype Notice = Notice(url: string, event: string, order: Id)

  /** Where events go; delivery itself is not modelled here. */
  class Dispatcher {
    var sent: seq<Notice>

    constructor ()
      ensures sent == []
    {
      sent := [];
    }

    method Dispatch(url: string, event: string, order: Id)
      modifies this
      ensures sent == old(sent) + [Notice(url, event, order)]
    {
      sent := sent + [Notice(url, event, order)];
    }
  }

  // ---------- what a service method promises ----------

  /** What a restaurant with this address hears of a call: its event, once, if the call succeeded. */
  function Told(answer: Result<Order>, url: string, event: string, id: Id): seq<Notice> {
    if answer.Ok? && url != "" then [Notice(url, event, id)] else []
  }

  function UrlIn(sample: Option<RestaurantRow>): string {
    if sample.Some? then sample.value.url else ""
  }

  /** The order row the specification leaves behind. */
  function Answer(spec: Result<Db>, id: Id): (answer: Result<Order>)
    ensures spec.Err? ==> answer == Err(spec.error)
  {
    match spec
    case Err(error) => Err(error)
    case Ok(db) => if id in db.orders then Ok(db.orders[id]) else Err(NotFound)
  }

  /** A call that ran in its own transaction answers and leaves the tables as specified; when it is
      refused, or the infrastructure fails it, the tables are as they were. */
  ghost predicate Outcome(before: Db, op: Op, fate: Fate, after: Db, answer: Result<Order>)
    requires op.IsOrderOp()
  {
    var spec := Apply(before, op);
    if spec.Ok? && !fate.Fine? then answer == Err(Interrupted) && after == before
    else answer == Answer(spec, OrderIdOf(op)) && after == if spec.Ok? then spec.value else before
  }

  /** A call that joined a transaction answers as specified; whoever owns the transaction undoes what a
      failed call has already written. */
  ghost predicate InnerOutcome(before: Db, op: Op, fate: Fate, after: Db, answer: Result<Order>)
    requires op.IsOrderOp()
  {
    var spec := Apply(before, op);
    if spec.Ok? && fate.BodyFails? then answer == Err(Interrupted)
    else answer == Answer(spec, OrderIdOf(op)) && (spec.Ok? ==> after == spec.value)
  }

  /** A connection before or after a call. */
  datatype Snapshot = Snapshot(contents: Db, open: bool, base: Db)

  /** What one call promises, alone or inside somebody's transaction. */
  ghost predicate Did(before: Snapshot, op: Op, fate: Fate, after: Snapshot, answer: Result<Order>)
    requires op.IsOrderOp()
  {
    && after.open == before.open
    && if before.open then InnerOutcome(before.contents, op, fate, after.contents, answer) && after.base == before.base
       else Outcome(before.contents, op, fate, after.contents, answer)
  }

  /** What the end of a call does with its body's outcome. */
  ghost predicate Ends(mid: Snapshot, joined: bool, body: Result<Order>, fate: Fate, after: Snapshot,
                       answer: Result<Order>)
  {
    var kept := body.Ok? && (joined || !fate.CommitFails?);
    && after.open == joined
    && answer == (if kept || body.Err? then body else Err(Interrupted))
    && (joined ==> after.contents == mid.contents && after.base == mid.base)
    && (!joined ==> after.contents == if kept then mid.contents else mid.base)
  }

  /** Begin, body and end together do what the call promises. */
  lemma CallDid(before: Snapshot, mid: Snapshot, after: Snapshot, op: Op, fate: Fate,
                body: Result<Order>, answer: Result<Order>)
    requires op.IsOrderOp() && InnerOutcome(before.contents, op, fate, mid.contents, body)
    requires mid.base == before.base && (!before.open ==> before.base == before.contents)
    requires Ends(mid, before.open, body, fate, after, answer)
    requires Apply(before.contents, op).Ok? ==> OrderIdOf(op) in Apply(before.contents, op).value.orders
    ensures Did(before, op, fate, after, answer)
  {
    hide Apply;
  }

  /** An accepted order call leaves its order in the table. */
  lemma AnswerIsOk(before: Db, op: Op)
    requires op.IsOrderOp() && Apply(before, op).Ok?
    ensures OrderIdOf(op) in Apply(before, op).value.orders
  {
    hide Restock, RefundFault, FetchWanted, Wanted, LinesFault, ExactTotal, Wrap64, EntryFault;
  }

  lemma DidGood(before: Snapshot, op: Op, fate: Fate, after: Snapshot, answer: Result<Order>,
                restaurants: map<Id, RestaurantRow>)
    requires op.IsOrderOp() && Good(before.contents, restaurants) && Did(before, op, fate, after, answer) && !before.open
    requires op.Checkout? ==> (op.sample.Some? <==> op.input.restaurant in restaurants)
    ensures Good(after.contents, restaurants)
  {
    if op.Checkout? && Apply(before.contents, op).Ok? {
      SampledExists(before.contents, op, restaurants);
    }
    OutcomeGood(before.contents, op, fate, after.contents, answer, restaurants);
  }

  /** What good tables say about one order. */
  lemma GoodOrder(db: Db, restaurants: map<Id, RestaurantRow>, id: Id)
    requires Good(db, restaurants) && id in db.orders
    ensures ItemsOk(db.orders[id].items) && db.orders[id].restaurant in restaurants
  {
    assert OrderOk(db.orders[id], db.dishes);
  }

  /** Well-formed tables in which every order belongs to a restaurant that exists. */
  ghost predicate Good(db: Db, restaurants: map<Id, RestaurantRow>) {
    WellFormed(db) && forall o | o in db.orders :: db.orders[o].restaurant in restaurants
  }

  lemma OwnersStay(before: Db, op: Op, restaurants: map<Id, RestaurantRow>)
    requires op.Checkout? ==> op.input.restaurant in restaurants
    requires op.IsOrderOp() && Apply(before, op).Ok?
    requires forall o | o in before.orders :: before.orders[o].restaurant in restaurants
    ensures forall o | o in Apply(before, op).value.orders :: Apply(before, op).value.orders[o].restaurant in restaurants
  {
    hide Restock, RefundFault, FetchWanted, Wanted, LinesFault, ExactTotal, Wrap64, EntryFault;
  }

  /** A call of known restaurants leaves good tables good, whether it is accepted or not. */
  lemma OutcomeGood(before: Db, op: Op, fate: Fate, after: Db, answer: Result<Order>,
                    restaurants: map<Id, RestaurantRow>)
    requires op.IsOrderOp() && Good(before, restaurants) && Outcome(before, op, fate, after, answer)
    requires op.Checkout? && Apply(before, op).Ok? ==> op.input.restaurant in restaurants
    ensures Good(after, restaurants)
  {
    if Apply(before, op).Ok? {
      ApplyKeeps(before, op);
      OwnersStay(before, op, restaurants);
    }
    hide WellFormed, Apply;
  }

  lemma SampledExists(before: Db, op: Op, restaurants: map<Id, RestaurantRow>)
    requires op.Checkout? && Apply(before, op).Ok?
    requires op.sample.Some? <==> op.input.restaurant in restaurants
    ensures op.input.restaurant in restaurants
  {
  }

  /** Only an accepted call succeeds, and its answer is the order it leaves in the table. */
  lemma DidAccept(before: Snapshot, op: Op, fate: Fate, after: Snapshot, answer: Result<Order>)
    requires op.IsOrderOp() && Did(before, op, fate, after, answer) && answer.Ok?
    ensures Apply(before.contents, op).Ok?
    ensures OrderIdOf(op) in after.contents.orders && answer.value == after.contents.orders[OrderIdOf(op)]
  {
    hide Apply;
  }

  /** A checkout that succeeds was placed with a restaurant that exists and is active. */
  lemma PlacedActive(before: Snapshot, op: Op, fate: Fate, after: Snapshot, answer: Result<Order>)
    requires op.Checkout? && Did(before, op, fate, after, answer)
    ensures answer.Ok? ==>
              && op.sample.Some? && op.sample.value.active
              && op.orderId in after.contents.orders && answer.value == after.contents.orders[op.orderId]
  {
    if answer.Ok? {
      DidAccept(before, op, fate, after, answer);
      CheckoutAccepted(before.contents, op);
    }
    hide Did, Apply;
  }

  /** A cancellation that succeeds was the order's own customer's. */
  lemma CancelledOwn(before: Snapshot, op: Op, fate: Fate, after: Snapshot, answer: Result<Order>)
    requires op.CustomerCancel? && Did(before, op, fate, after, answer)
    ensures answer.Ok? ==>
              && op.order in before.contents.orders && before.contents.orders[op.order].user == op.user
              && before.contents.orders[op.order].status == Created
              && op.order in after.contents.orders && answer.value == after.contents.orders[op.order]
  {
    if answer.Ok? {
      DidAccept(before, op, fate, after, answer);
      CancelAccepted(before.contents, op);
    }
    hide Did, Apply;
  }

  /** A status change that succeeds was the order's own restaurant's. */
  lemma MovedOwn(before: Snapshot, op: Op, fate: Fate, after: Snapshot, answer: Result<Order>)
    requires op.ChangeStatus? && Did(before, op, fate, after, answer)
    ensures answer.Ok? ==>
              && op.order in before.contents.orders && before.contents.orders[op.order].restaurant == op.restaurant
              && op.order in after.contents.orders && answer.value == after.contents.orders[op.order]
  {
    if answer.Ok? {
      DidAccept(before, op, fate, after, answer);
      StatusAccepted(before.contents, op);
    }
    hide Did, Apply;
  }

  // ---------- pieces of the loops ----------

  /** Taking one more line out of (or back into) stock. */
  lemma RestockOne(dishes: map<Id, Dish>, items: seq<OrderItem>, item: OrderItem, back: bool)
    requires item.dish in dishes
    ensures var now := Restock(dishes, items, back);
            Restock(dishes, items + [item], back) ==
            now[item.dish := now[item.dish].(stock := now[item.dish].stock + if back then item.qty else -item.qty)]
  {
    assert (items + [item])[..|items|] == items;
  }

  lemma RestockNothing(dishes: map<Id, Dish>, back: bool)
    ensures Restock(dishes, [], back) == dishes
  {
  }

  /** A row whose dish is not among the earlier lines is still as it was read. */
  lemma RowUntouched(rows: seq<Fetched>, items: seq<OrderItem>, k: nat)
    requires Ascends(Ids(rows)) && k < |rows| && |items| == k
    requires forall j :: 0 <= j < k ==> items[j].dish == rows[j].id
    ensures QtyOf(items, rows[k].id) == 0
  {
    forall j | 0 <= j < k ensures items[j].dish != rows[k].id {
      assert Ids(rows)[j] < Ids(rows)[k];
    }
    QtyOfAbsent(items, rows[k].id);
  }

  lemma TotalOne(items: seq<OrderItem>, item: OrderItem)
    ensures Wrap64(ExactTotal(items + [item])) == Wrap64(Wrap64(ExactTotal(items)) + Wrap64(item.price * item.qty))
  {
    assert (items + [item])[..|items|] == items;
    WrapAdd(ExactTotal(items), item.price * item.qty);
  }

  /** The checkout loop after k turns: the first k rows passed, are on the receipt, in the total, and out
      of stock; nothing else has happened. */
  ghost predicate SoldLines(rows: seq<Fetched>, restaurant: Id, want: map<Id, int>, k: nat,
                            items: seq<OrderItem>, total: int, start: map<Id, Dish>, now: map<Id, Dish>)
    requires RowsCovered(rows, want) && k <= |rows|
  {
    && |items| == k
    && (forall j :: 0 <= j < k ==> items[j] == ItemOf(rows[j], want[rows[j].id]))
    && (forall j :: 0 <= j < k ==> LineFault(rows[j].dish, restaurant, want[rows[j].id]).None?)
    && total == Wrap64(ExactTotal(items))
    && now == Restock(start, items, false)
  }

  /** The row of the next turn is still as it was read. */
  lemma NextRowUntouched(rows: seq<Fetched>, restaurant: Id, want: map<Id, int>, k: nat,
                         items: seq<OrderItem>, total: int, start: map<Id, Dish>, now: map<Id, Dish>)
    requires RowsCurrent(start, rows, want) && k < |rows|
    requires SoldLines(rows, restaurant, want, k, items, total, start, now)
    ensures rows[k].id in now && now[rows[k].id] == rows[k].dish
  {
    assert Ascends(Ids(rows)) by { AscendingIs(want.Keys); }
    assert forall j :: 0 <= j < k ==> items[j].dish == rows[j].id;
    hide ExactTotal, QtyOf, LineFault, Ascending, Wrap64;
    RowUntouched(rows, items, k);
  }

  /** The first row that refuses its line stops the loop with the specified error. */
  lemma SoldLinesRefused(rows: seq<Fetched>, restaurant: Id, want: map<Id, int>, k: nat,
                         items: seq<OrderItem>, total: int, start: map<Id, Dish>, now: map<Id, Dish>)
    requires RowsCovered(rows, want) && k < |rows| && SoldLines(rows, restaurant, want, k, items, total, start, now)
    requires LineFault(rows[k].dish, restaurant, want[rows[k].id]).Some?
    ensures LinesFault(rows, restaurant, want) == LineFault(rows[k].dish, restaurant, want[rows[k].id])
  {
    FirstRefusal(rows, restaurant, want, k);
  }

  lemma SoldLinesStep(rows: seq<Fetched>, restaurant: Id, want: map<Id, int>, k: nat,
                      items: seq<OrderItem>, total: int, start: map<Id, Dish>, now: map<Id, Dish>)
    requires RowsCurrent(start, rows, want) && k < |rows|
    requires SoldLines(rows, restaurant, want, k, items, total, start, now)
    requires LineFault(rows[k].dish, restaurant, want[rows[k].id]).None?
    ensures var row, qty := rows[k], want[rows[k].id];
            && row.id in now
            && SoldLines(rows, restaurant, want, k + 1, items + [ItemOf(row, qty)],
                         Wrap64(total + Wrap64(row.dish.price * qty)),
                         start, now[row.id := now[row.id].(stock := now[row.id].stock - qty)])
  {
    var item := ItemOf(rows[k], want[rows[k].id]);
    RestockOne(start, items, item, false);
    TotalOne(items, item);
    hide ExactTotal, Restock, Wrap64, Ascending;
  }

  /** When every wanted dish was found, the locked rows are the request at its current versions. */
  lemma AllCurrent(dishes: map<Id, Dish>, rows: seq<Fetched>, want: map<Id, int>)
    requires want.Keys <= dishes.Keys && Ids(rows) == Ascending(want.Keys * dishes.Keys)
    requires forall i :: 0 <= i < |rows| ==> rows[i].id in dishes && rows[i].dish == dishes[rows[i].id]
    ensures RowsCurrent(dishes, rows, want)
  {
    assert want.Keys * dishes.Keys == want.Keys;
    AscendingIs(want.Keys);
    forall i | 0 <= i < |rows| ensures rows[i].id in want {
      assert Ids(rows)[i] in Ascending(want.Keys);
    }
  }

  /** The loop's position: current rows, k of them sold. */
  ghost predicate LineAt(rows: seq<Fetched>, restaurant: Id, want: map<Id, int>, k: nat,
                         items: seq<OrderItem>, total: int, start: map<Id, Dish>, now: map<Id, Dish>)
  {
    RowsCurrent(start, rows, want) && k <= |rows| && SoldLines(rows, restaurant, want, k, items, total, start, now)
  }

  ghost predicate LineRefused(rows: seq<Fetched>, restaurant: Id, want: map<Id, int>, fault: Option<Error>) {
    RowsCovered(rows, want) && fault == LinesFault(rows, restaurant, want)
  }

  lemma RefusedIs(rows: seq<Fetched>, restaurant: Id, want: map<Id, int>, fault: Option<Error>)
    requires LineRefused(rows, restaurant, want, fault)
    ensures RowsCovered(rows, want) && fault == LinesFault(rows, restaurant, want)
  {
  }

  lemma LinesDone(rows: seq<Fetched>, restaurant: Id, want: map<Id, int>,
                  items: seq<OrderItem>, total: int, start: map<Id, Dish>, now: map<Id, Dish>)
    requires LineAt(rows, restaurant, want, |rows|, items, total, start, now)
    ensures RowsCovered(rows, want) && LinesFault(rows, restaurant, want).None?
    ensures items == Receipt(rows, want) && total == Wrap64(ExactTotal(items)) && now == Restock(start, items, false)
  {
    SoldLinesDone(rows, restaurant, want, items, total, start, now);
  }

  /** The refund loop after k turns: the first k lines are back in stock, and they fitted. */
  ghost predicate RefundedLines(items: seq<OrderItem>, k: nat, start: map<Id, Dish>, now: map<Id, Dish>)
    requires k <= |items|
  {
    && now == Restock(start, items[..k], true)
    && forall j :: 0 <= j < k ==>
         items[j].dish in start && start[items[j].dish].stock + items[j].qty <= INT4_MAX
  }

  /** The dish of the next line is still as it was, when no dish is on a receipt twice. */
  lemma NextLineUntouched(items: seq<OrderItem>, k: nat, start: map<Id, Dish>, now: map<Id, Dish>)
    requires ItemsOk(items) && k < |items| && RefundedLines(items, k, start, now)
    ensures items[k].dish in now <==> items[k].dish in start
    ensures items[k].dish in now ==> now[items[k].dish] == start[items[k].dish]
  {
    forall j | 0 <= j < k ensures items[..k][j].dish != items[k].dish {
      assert DishesOf(items)[j] < DishesOf(items)[k];
    }
    QtyOfAbsent(items[..k], items[k].dish);
  }

  lemma RefundedLinesStep(items: seq<OrderItem>, k: nat, start: map<Id, Dish>, now: map<Id, Dish>)
    requires ItemsOk(items) && k < |items| && RefundedLines(items, k, start, now)
    requires items[k].dish in now && now[items[k].dish].stock + items[k].qty <= INT4_MAX
    ensures var d := items[k].dish;
            RefundedLines(items, k + 1, start, now[d := now[d].(stock := now[d].stock + items[k].qty)])
  {
    NextLineUntouched(items, k, start, now);
    RestockOne(start, items[..k], items[k], true);
    assert items[..k + 1] == items[..k] + [items[k]];
  }

  /** The first line that cannot be returned stops the loop with the specified error. */
  lemma RefundRefused(items: seq<OrderItem>, k: nat, start: map<Id, Dish>, now: map<Id, Dish>)
    requires ItemsOk(items) && k < |items| && RefundedLines(items, k, start, now)
    requires items[k].dish in now ==> now[items[k].dish].stock + items[k].qty > INT4_MAX
    ensures RefundFault(start, items) == Some(if items[k].dish in now then InvalidInput else MenuItemNotFound)
  {
    NextLineUntouched(items, k, start, now);
    FirstRefundFault(start, items, k);
  }

  lemma SoldLinesDone(rows: seq<Fetched>, restaurant: Id, want: map<Id, int>,
                      items: seq<OrderItem>, total: int, start: map<Id, Dish>, now: map<Id, Dish>)
    requires RowsCovered(rows, want) && SoldLines(rows, restaurant, want, |rows|, items, total, start, now)
    ensures items == Receipt(rows, want) && total == Wrap64(ExactTotal(items)) && now == Restock(start, items, false)
    ensures LinesFault(rows, restaurant, want).None?
  {
    LinesFaultNone(rows, restaurant, want);
  }

  /** The ids of a request are the keys of its lookup map. */
  lemma IdsAreKeys(lines: seq<Line>, ids: seq<Id>)
    requires |ids| == |lines| && forall i :: 0 <= i < |ids| ==> ids[i] == lines[i].dish
    ensures (set x | x in ids) == Wanted(lines).Keys
  {
    forall x ensures x in Wanted(lines) <==> x in ids {
      WantedDishes(lines, x);
      if x in ids {
        var i :| 0 <= i < |ids| && ids[i] == x;
        assert lines[i].dish == x;
      }
    }
  }

  /** The count check finds exactly the requests that name a missing dish. */
  lemma CountDecides(lines: seq<Line>, dishes: map<Id, Dish>, ids: seq<Id>)
    requires DistinctDishes(lines) && |ids| == |lines| && forall i :: 0 <= i < |ids| ==> ids[i] == lines[i].dish
    ensures var found := (set x | x in ids) * dishes.Keys;
            && found == Wanted(lines).Keys * dishes.Keys
            && (|found| == |lines| <==> Wanted(lines).Keys <= dishes.Keys)
  {
    IdsAreKeys(lines, ids);
    WantedIsRequest(lines);
    hide *;
    var want := Wanted(lines).Keys;
    var found := want * dishes.Keys;
    assert |want - found| == |want| - |found|;
  }

  /** What the locking query of a good request brought: too few rows, and a dish is missing, or exactly the
      request at its current versions, to be sold. */
  lemma LockedRows(db: Db, op: Op, ids: seq<Id>, rows: seq<Fetched>)
    requires op.Checkout? && EntryFault(op.input, op.sample).None?
    requires |ids| == |op.input.lines| && forall i :: 0 <= i < |ids| ==> ids[i] == op.input.lines[i].dish
    requires var found := (set x | x in ids) * db.dishes.Keys;
             |rows| == |found| && Ids(rows) == Ascending(found)
    requires forall i :: 0 <= i < |rows| ==> rows[i].id in db.dishes && rows[i].dish == db.dishes[rows[i].id]
    ensures if |rows| != |op.input.lines| then Apply(db, op) == Err(MenuItemNotFound)
            else RowsCurrent(db.dishes, rows, Wanted(op.input.lines))
                 && Apply(db, op) == Sale(db, op.input, op.orderId, rows, Wanted(op.input.lines))
  {
    CountDecides(op.input.lines, db.dishes, ids);
    if |rows| == |op.input.lines| {
      AllCurrent(db.dishes, rows, Wanted(op.input.lines));
      hide *;
      CheckoutIsSale(db, op, rows);
    } else {
      hide Sale, EntryFault, Wanted, Ascending;
    }
  }

  // ---------- the service ----------

  class OrderService {
    const db: Database
    const menu: MenuRepository
    const orders: OrderRepository
    const restaurants: RestaurantRepository
    const dispatcher: Dispatcher

    constructor (db: Database, restaurants: RestaurantRepository, dispatcher: Dispatcher)
      ensures this.db == db && this.restaurants == restaurants && this.dispatcher == dispatcher
      ensures menu.db == db && orders.db == db
    {
      this.db := db;
      this.menu := new MenuRepository(db);
      this.orders := new OrderRepository(db);
      this.restaurants := restaurants;
      this.dispatcher := dispatcher;
    }

    ghost predicate Valid()
      reads this, db, restaurants
    {
      && db.Valid() && menu.db == db && orders.db == db
      && Good(db.Contents(), restaurants.rows)
    }

    /** The callback address of an order's restaurant. */
    ghost function UrlFor(id: Id): string
      reads this, db, restaurants
    {
      if id in db.orders && db.orders[id].restaurant in restaurants.rows
      then restaurants.rows[db.orders[id].restaurant].url else ""
    }

    ghost function Look(): Snapshot
      reads db
    {
      Snapshot(db.Contents(), db.open, db.Base())
    }

    method NotifyPartner(url: string, event: string, id: Id)
      modifies dispatcher
      ensures dispatcher.sent == old(dispatcher.sent) + if url == "" then [] else [Notice(url, event, id)]
    {
      if url != "" {
        dispatcher.Dispatch(url, event, id);
      }
    }

    /** The end of every order call: commit or roll back, and notify after a commit. */
    method Conclude(joined: bool, body: Result<Order>, fate: Fate, url: string, event: string, id: Id)
      returns (answer: Result<Order>)
      requires db.Valid() && db.open
      modifies db, dispatcher
      ensures db.Valid() && Ends(old(Look()), joined, body, fate, Look(), answer)
      ensures dispatcher.sent == old(dispatcher.sent) + Told(answer, url, event, id)
    {
      var kept := db.Finish(joined, body.Err?, !fate.CommitFails?);
      if !kept {
        return if body.Err? then body else Err(Interrupted);
      }
      NotifyPartner(url, event, id);
      return body;
    }

    /** The three checks of a locked row against its line, in this order. */
    method CheckLine(row: Dish, restaurant: Id, qty: int) returns (fault: Option<Error>)
      ensures fault == LineFault(row, restaurant, qty)
    {
      if row.restaurant != restaurant {
        return Some(RestaurantMismatch);
      }
      if !row.available {
        return Some(ItemUnavailable);
      }
      if row.stock < qty {
        return Some(OutOfStock);
      }
      return None;
    }

    /** One turn of the checkout loop: check row k against its line, take it out of stock, add it up. */
    method SellLine(rows: seq<Fetched>, restaurant: Id, want: map<Id, int>, k: nat,
                    items: seq<OrderItem>, total: int, ghost start: map<Id, Dish>)
      returns (fault: Option<Error>, items': seq<OrderItem>, total': int)
      requires db.Valid() && menu.db == db && db.open && k < |rows|
      requires LineAt(rows, restaurant, want, k, items, total, start, db.dishes)
      modifies db`dishes, db`undo
      ensures db.Valid() && db.open && db.Base() == old(db.Base())
      ensures fault.Some? ==> LineRefused(rows, restaurant, want, fault)
      ensures fault.None? ==> LineAt(rows, restaurant, want, k + 1, items', total', start, db.dishes)
    {
      items', total' := items, total;
      var row := rows[k];
      var qty := want[row.id];
      NextRowUntouched(rows, restaurant, want, k, items, total, start, db.dishes);
      fault := CheckLine(row.dish, restaurant, qty);
      if fault.Some? {
        SoldLinesRefused(rows, restaurant, want, k, items, total, start, db.dishes);
        return;
      }
      SoldLinesStep(rows, restaurant, want, k, items, total, start, db.dishes);
      var refused := menu.DecrementStock(row.id, qty);
      if refused.Some? {
        assert false; // the row is locked and has just been checked
      }
      total' := Wrap64(total + Wrap64(row.dish.price * qty));
      items' := items + [ItemOf(row, qty)];
    }

    /** The checkout loop: the first refusal in row order, or every line sold. */
    method SellLines(rows: seq<Fetched>, restaurant: Id, want: map<Id, int>)
      returns (fault: Option<Error>, items: seq<OrderItem>, total: int)
      requires db.Valid() && menu.db == db && db.open && RowsCurrent(db.dishes, rows, want)
      modifies db`dishes, db`undo
      ensures db.Valid() && db.open && db.Base() == old(db.Base())
      ensures fault == LinesFault(rows, restaurant, want)
      ensures fault.None? ==>
                && items == Receipt(rows, want) && total == Wrap64(ExactTotal(items))
                && db.dishes == Restock(old(db.dishes), items, false)
    {
      fault, items, total := None, [], 0;
      ghost var start := db.dishes;
      RestockNothing(start, false);
      assert LineAt(rows, restaurant, want, 0, items, total, start, start);
      hide SoldLines, LineAt, LineRefused, UndoAll;
      for k := 0 to |rows|
        invariant db.Valid() && db.open && db.Base() == old(db.Base())
        invariant LineAt(rows, restaurant, want, k, items, total, start, db.dishes)
      {
        fault, items, total := SellLine(rows, restaurant, want, k, items, total, start);
        if fault.Some? {
          RefusedIs(rows, restaurant, want, fault);
          return;
        }
      }
      LinesDone(rows, restaurant, want, items, total, start, db.dishes);
      return None, items, total;
    }

    /** The ids to lock and the quantity per dish, in one pass over the request. */
    method Requested(lines: seq<Line>) returns (ids: seq<Id>, want: map<Id, int>)
      ensures want == Wanted(lines)
      ensures |ids| == |lines| && forall i :: 0 <= i < |ids| ==> ids[i] == lines[i].dish
    {
      ids, want := [], map[];
      for i := 0 to |lines|
        invariant |ids| == i && forall j :: 0 <= j < i ==> ids[j] == lines[j].dish
        invariant want == Wanted(lines[..i])
      {
        assert lines[..i + 1][..i] == lines[..i];
        ids := ids + [lines[i].dish];
        want := want[lines[i].dish := lines[i].qty];
      }
      assert lines[..|lines|] == lines;
    }

    /** The body of CreateOrder's transaction. */
    method Place(input: CheckoutInput, id: Id, fate: Fate) returns (answer: Result<Order>, url: string)
      requires Valid() && db.open && InputFault(input).None?
      modifies db`dishes, db`orders, db`undo
      ensures db.Valid() && db.open && db.Base() == old(db.Base())
      ensures InnerOutcome(old(db.Contents()), Checkout(input, id, restaurants.Sample(input.restaurant)), fate,
                           db.Contents(), answer)
      ensures answer.Ok? ==> restaurants.Sample(input.restaurant).Some?
                             && url == restaurants.Sample(input.restaurant).value.url
    {
      url := "";
      var found := restaurants.Sample(input.restaurant);
      if found.None? {
        return Err(RestaurantNotFound), url;
      }
      if !found.value.active {
        return Err(RestaurantInactive), url;
      }
      hide Good, UndoAll, InnerOutcome, CheckoutSpec;
      url := found.value.url;
      answer := PlaceKnown(input, id, found, fate);
    }

    /** From the active restaurant on: lock the rows of the request, count them, sell and store. */
    method PlaceKnown(input: CheckoutInput, id: Id, ghost found: Option<RestaurantRow>, fate: Fate)
      returns (answer: Result<Order>)
      requires db.Valid() && menu.db == db && orders.db == db && db.open && EntryFault(input, found).None?
      modifies db`dishes, db`orders, db`undo
      ensures db.Valid() && db.open && db.Base() == old(db.Base())
      ensures InnerOutcome(old(db.Contents()), Checkout(input, id, found), fate, db.Contents(), answer)
    {
      ghost var op, before := Checkout(input, id, found), db.Contents();
      hide RowsCurrent, Sale, UndoAll, CheckoutSpec, EntryFault, Apply, Wanted, Ascending;
      var ids, want := Requested(input.lines);
      var rows := menu.GetItemsByIDsForUpdate(ids);
      LockedRows(before, op, ids, rows);
      if |rows| != |input.lines| {
        return Err(MenuItemNotFound);
      }
      answer := SellAndStore(input, id, rows, want);
      if answer.Ok? && fate.BodyFails? {
        answer := Err(Interrupted);
      }
    }

    /** From the locked rows to the stored order. */
    method SellAndStore(input: CheckoutInput, id: Id, rows: seq<Fetched>, want: map<Id, int>)
      returns (answer: Result<Order>)
      requires db.Valid() && menu.db == db && orders.db == db && db.open && RowsCurrent(db.dishes, rows, want)
      modifies db`dishes, db`orders, db`undo
      ensures db.Valid() && db.open && db.Base() == old(db.Base())
      ensures var sale := Sale(old(db.Contents()), input, id, rows, want);
              answer == Answer(sale, id) && (sale.Ok? ==> db.Contents() == sale.value)
    {
      assert RowsCovered(rows, want);
      hide WellFormed, RowsCurrent, RowsCovered, LinesFault, Restock, Receipt, ExactTotal, Wrap64, UndoAll;
      var fault, items, total := SellLines(rows, input.restaurant, want);
      if fault.Some? {
        return Err(fault.value);
      }
      var order := Order(input.user, input.restaurant, Created, total, items, []);
      fault := orders.CreateOrder(id, order);
      if fault.Some? {
        return Err(fault.value);
      }
      assert db.orders[id] == NewOrder(input, items, total);
      return Ok(db.orders[id]);
    }

    /** WithinTransaction around Place, and the notification after it. */
    method PlaceInTransaction(input: CheckoutInput, id: Id, fate: Fate, ghost op: Op) returns (answer: Result<Order>)
      requires Valid() && InputFault(input).None? && op == Checkout(input, id, restaurants.Sample(input.restaurant))
      modifies db, dispatcher
      ensures db.Valid() && (!db.open ==> Valid())
      ensures Did(old(Look()), op, fate, Look(), answer)
      ensures dispatcher.sent == old(dispatcher.sent) + Told(answer, UrlIn(op.sample), "order.created", id)
    {
      ghost var before := Look();
      assert !before.open ==> before.base == before.contents;
      assert Good(before.contents, restaurants.rows);
      if Apply(before.contents, op).Ok? {
        AnswerIsOk(before.contents, op);
      }
      hide *;
      var joined := db.Begin();
      var body, url := Place(input, id, fate);
      ghost var mid := Look();
      answer := Conclude(joined, body, fate, url, "order.created", id);
      CallDid(before, mid, Look(), op, fate, body, answer);
      if !joined {
        DidGood(before, op, fate, Look(), answer, restaurants.rows);
      }
    }

    method CreateOrder(input: CheckoutInput, id: Id, fate: Fate) returns (answer: Result<Order>)
      requires Valid()
      modifies db, dispatcher
      ensures db.Valid() && (!db.open ==> Valid())
      ensures var op := Checkout(input, id, restaurants.Sample(input.restaurant));
              && Did(old(Look()), op, fate, Look(), answer)
              && dispatcher.sent == old(dispatcher.sent) + Told(answer, UrlIn(op.sample), "order.created", id)
      ensures answer.Ok? ==>
                && id in db.orders && answer.value == db.orders[id]
                && input.restaurant in restaurants.rows && restaurants.rows[input.restaurant].active
                && dispatcher.sent == old(dispatcher.sent)
                   + Told(answer, restaurants.rows[input.restaurant].url, "order.created", id)
    {
      ghost var before, sample := Look(), restaurants.Sample(input.restaurant);
      var fault := Validate(input);
      if fault.Some? {
        return Err(fault.value);
      }
      hide Good, UndoAll, Did;
      answer := PlaceInTransaction(input, id, fate, Checkout(input, id, sample));
      PlacedActive(before, Checkout(input, id, sample), fate, Look(), answer);
    }

    /** The refund loop: give every receipt line back to its dish. */
    method RefundLines(items: seq<OrderItem>) returns (fault: Option<Error>)
      requires db.Valid() && menu.db == db && db.open && ItemsOk(items)
      modifies db`dishes, db`undo
      ensures db.Valid() && db.open && db.Base() == old(db.Base())
      ensures fault == RefundFault(old(db.dishes), items)
      ensures fault.None? ==> db.dishes == Restock(old(db.dishes), items, true)
    {
      RestockNothing(db.dishes, true);
      assert items[..0] == [] && items[..|items|] == items;
      RefundFaultNone(db.dishes, items);
      hide RefundFault, Restock, WellFormed, UndoAll, ItemsOk;
      for k := 0 to |items|
        invariant db.Valid() && db.open && db.Base() == old(db.Base())
        invariant RefundedLines(items, k, old(db.dishes), db.dishes)
      {
        ghost var now := db.dishes;
        fault := menu.IncrementStock(items[k].dish, items[k].qty);
        if fault.Some? {
          RefundRefused(items, k, old(db.dishes), now);
          return;
        }
        RefundedLinesStep(items, k, old(db.dishes), now);
      }
      return None;
    }

    /** applyStatusChange: the new status and its audit entry. */
    method ApplyStatusChange(id: Id, order: Order, to: Status, actor: Actor) returns (fault: Option<Error>)
      requires db.Valid() && orders.db == db && db.open && id in db.orders && db.orders[id] == order
      modifies db`orders, db`undo
      ensures db.Valid() && db.open && db.Base() == old(db.Base())
      ensures fault.None? && db.orders == old(db.orders)[id := Stamp(order, to, actor)]
    {
      fault := orders.UpdateOrderStatus(id, to);
      orders.AddStatusHistory(id, Entry(Some(order.status), to, actor));
    }

    /** A move that is allowed: return the receipt if it is a cancellation, stamp the order, and read the
        order and its restaurant again. */
    method Carry(id: Id, order: Order, to: Status, actor: Actor, fate: Fate)
      returns (answer: Result<Order>, url: string)
      requires db.Valid() && menu.db == db && orders.db == db && db.open
      requires id in db.orders && db.orders[id] == order && ItemsOk(order.items) && order.restaurant in restaurants.rows
      requires MoveFault(order, to, actor).None?
      modifies db`dishes, db`orders, db`undo
      ensures db.Valid() && db.open && db.Base() == old(db.Base())
      ensures var spec := MoveSpec(old(db.Contents()), id, to, actor);
              if spec.Ok? && fate.BodyFails? then answer == Err(Interrupted)
              else answer == Answer(spec, id) && (spec.Ok? ==> db.Contents() == spec.value)
      ensures answer.Ok? ==> url == restaurants.rows[order.restaurant].url
    {
      url := "";
      hide Restock, RefundFault, UndoAll, ItemsOk, MoveFault;
      if to == Cancelled {
        var broken := RefundLines(order.items);
        if broken.Some? {
          return Err(broken.value), url;
        }
      }
      var fault := ApplyStatusChange(id, order, to, actor);
      if fate.BodyFails? {
        return Err(Interrupted), url;
      }
      url := restaurants.Sample(order.restaurant).value.url;
      return Ok(db.orders[id]), url;
    }

    /** The body of UpdateOrderStatus's transaction. */
    method Move(restaurant: Id, id: Id, status: Status, fate: Fate) returns (answer: Result<Order>, url: string)
      requires Valid() && db.open && id != NIL && restaurant != NIL
      modifies db`dishes, db`orders, db`undo
      ensures db.Valid() && db.open && db.Base() == old(db.Base())
      ensures InnerOutcome(old(db.Contents()), ChangeStatus(restaurant, id, status, old(UrlFor(id))), fate,
                           db.Contents(), answer)
      ensures answer.Ok? ==> url == old(UrlFor(id))
    {
      hide Good, UndoAll;
      url := "";
      var found := orders.GetOrderForUpdate(id);
      if found.None? {
        return Err(NotFound), url;
      }
      var order := found.value;
      if order.restaurant != restaurant {
        return Err(NotFound), url;
      }
      if status == Cancelled {
        if !CanBeCancelledBy(order.status, Restaurant) {
          return Err(OrderAlreadyProcessed), url;
        }
      } else if !CanTransitionTo(order.status, status) {
        return Err(InvalidStatusTransition), url;
      }
      GoodOrder(db.Contents(), restaurants.rows, id);
      hide MoveSpec;
      answer, url := Carry(id, order, status, Restaurant, fate);
    }

    /** WithinTransaction around Move, and the notification after it. */
    method MoveInTransaction(restaurant: Id, id: Id, status: Status, fate: Fate, ghost op: Op)
      returns (answer: Result<Order>)
      requires Valid() && id != NIL && restaurant != NIL && op == ChangeStatus(restaurant, id, status, UrlFor(id))
      modifies db, dispatcher
      ensures db.Valid() && (!db.open ==> Valid())
      ensures Did(old(Look()), op, fate, Look(), answer)
      ensures dispatcher.sent == old(dispatcher.sent) + Told(answer, op.url, "order.status_updated", id)
    {
      ghost var before := Look();
      assert !before.open ==> before.base == before.contents;
      assert Good(before.contents, restaurants.rows);
      if Apply(before.contents, op).Ok? {
        AnswerIsOk(before.contents, op);
      }
      hide *;
      var joined := db.Begin();
      var body, url := Move(restaurant, id, status, fate);
      ghost var mid := Look();
      answer := Conclude(joined, body, fate, url, "order.status_updated", id);
      CallDid(before, mid, Look(), op, fate, body, answer);
      if !joined {
        DidGood(before, op, fate, Look(), answer, restaurants.rows);
      }
    }

    method UpdateOrderStatus(restaurant: Id, id: Id, status: Status, comment: string, fate: Fate)
      returns (answer: Result<Order>)
      requires Valid()
      modifies db, dispatcher
      ensures db.Valid() && (!db.open ==> Valid())
      ensures var url := old(UrlFor(id));
              && (ByteLen(comment) > MAX_FREE_TEXT_LEN ==> answer == Err(InvalidInput) && Look() == old(Look()))
              && (ByteLen(comment) <= MAX_FREE_TEXT_LEN ==>
                    Did(old(Look()), ChangeStatus(restaurant, id, status, url), fate, Look(), answer))
              && dispatcher.sent == old(dispatcher.sent) + Told(answer, url, "order.status_updated", id)
      ensures answer.Ok? ==>
                && id in db.orders && answer.value == db.orders[id]
                && id in old(db.orders) && old(db.orders)[id].restaurant == restaurant
                && old(db.orders)[id].restaurant in restaurants.rows
                && dispatcher.sent == old(dispatcher.sent)
                   + Told(answer, restaurants.rows[old(db.orders)[id].restaurant].url, "order.status_updated", id)
    {
      ghost var before, url := Look(), UrlFor(id);
      assert id in db.orders ==> db.orders[id].restaurant in restaurants.rows;
      if id == NIL || restaurant == NIL {
        return Err(InvalidInput);
      }
      if ByteLen(comment) > MAX_FREE_TEXT_LEN {
        return Err(InvalidInput);
      }
      hide Good, UndoAll, Did;
      answer := MoveInTransaction(restaurant, id, status, fate, ChangeStatus(restaurant, id, status, url));
      MovedOwn(before, ChangeStatus(restaurant, id, status, url), fate, Look(), answer);
    }

    /** The body of CancelOrderByCustomer's transaction. */
    method Withdraw(user: Id, id: Id, fate: Fate) returns (answer: Result<Order>, url: string)
      requires Valid() && db.open && id != NIL && user != NIL
      modifies db`dishes, db`orders, db`undo
      ensures db.Valid() && db.open && db.Base() == old(db.Base())
      ensures InnerOutcome(old(db.Contents()), CustomerCancel(user, id, old(UrlFor(id))), fate, db.Contents(), answer)
      ensures answer.Ok? ==> url == old(UrlFor(id))
    {
      hide Good, UndoAll;
      url := "";
      var found := orders.GetOrderForUpdate(id);
      if found.None? {
        return Err(NotFound), url;
      }
      var order := found.value;
      if order.user != user {
        return Err(NotFound), url;
      }
      if !CanBeCancelledBy(order.status, Customer) {
        return Err(OrderAlreadyProcessed), url;
      }
      GoodOrder(db.Contents(), restaurants.rows, id);
      hide MoveSpec;
      answer, url := Carry(id, order, Cancelled, Customer, fate);
    }

    /** WithinTransaction around Withdraw, and the notification after it. */
    method WithdrawInTransaction(user: Id, id: Id, fate: Fate, ghost op: Op) returns (answer: Result<Order>)
      requires Valid() && id != NIL && user != NIL && op == CustomerCancel(user, id, UrlFor(id))
      modifies db, dispatcher
      ensures db.Valid() && (!db.open ==> Valid())
      ensures Did(old(Look()), op, fate, Look(), answer)
      ensures dispatcher.sent == old(dispatcher.sent) + Told(answer, op.url, "order.cancelled", id)
    {
      ghost var before := Look();
      assert !before.open ==> before.base == before.contents;
      assert Good(before.contents, restaurants.rows);
      if Apply(before.contents, op).Ok? {
        AnswerIsOk(before.contents, op);
      }
      hide *;
      var joined := db.Begin();
      var body, url := Withdraw(user, id, fate);
      ghost var mid := Look();
      answer := Conclude(joined, body, fate, url, "order.cancelled", id);
      CallDid(before, mid, Look(), op, fate, body, answer);
      if !joined {
        DidGood(before, op, fate, Look(), answer, restaurants.rows);
      }
    }

    method CancelOrderByCustomer(user: Id, id: Id, reason: string, fate: Fate) returns (answer: Result<Order>)
      requires Valid()
      modifies db, dispatcher
      ensures db.Valid() && (!db.open ==> Valid())
      ensures var url := old(UrlFor(id));
              && (ByteLen(reason) > MAX_FREE_TEXT_LEN ==> answer == Err(InvalidInput) && Look() == old(Look()))
              && (ByteLen(reason) <= MAX_FREE_TEXT_LEN ==>
                    Did(old(Look()), CustomerCancel(user, id, url), fate, Look(), answer))
              && dispatcher.sent == old(dispatcher.sent) + Told(answer, url, "order.cancelled", id)
      ensures answer.Ok? ==>
                && id in db.orders && answer.value == db.orders[id]
                && id in old(db.orders) && old(db.orders)[id].user == user && old(db.orders)[id].status == Created
                && old(db.orders)[id].restaurant in restaurants.rows
                && dispatcher.sent == old(dispatcher.sent)
                   + Told(answer, restaurants.rows[old(db.orders)[id].restaurant].url, "order.cancelled", id)
    {
      ghost var before, url := Look(), UrlFor(id);
      assert id in db.orders ==> db.orders[id].restaurant in restaurants.rows;
      if id == NIL || user == NIL {
        return Err(InvalidInput);
      }
      if ByteLen(reason) > MAX_FREE_TEXT_LEN {
        return Err(InvalidInput);
      }
      hide Good, UndoAll, Did;
      answer := WithdrawInTransaction(user, id, fate, CustomerCancel(user, id, url));
      CancelledOwn(before, CustomerCancel(user, id, url), fate, Look(), answer);
    }
  }
}
