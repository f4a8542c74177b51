/** The sequential specification: what each committed operation does to the tables when it runs
    alone. A transaction is described here in one piece, over whole tables; the concurrent engine
    and the imperative services are proved against it. */
module Spec {
  import opened Domain

  /** Order rows carry their receipt lines and audit entries, as domain.Order does. */
  datatype Db = Db(categories: map<Id, Category>, dishes: map<Id, Dish>, orders: map<Id, Order>)

  /** One service call. Identifiers of new rows are generated by the service, so they are part of
      the call; `sample` and `url` are what the call reads of its restaurant without a lock. */
  datatype Op =
    | Checkout(input: CheckoutInput, orderId: Id, sample: Option<RestaurantRow>)
    | ChangeStatus(restaurant: Id, order: Id, status: Status, url: string)
    | CustomerCancel(user: Id, order: Id, url: string)
    | AddCategory(restaurant: Id, category: Id, name: string)
    | RenameCategory(restaurant: Id, category: Id, name: string)
    | DropCategory(restaurant: Id, category: Id)
    | AddItem(item: Id, dish: Dish)
    | EditItem(restaurant: Id, item: Id, patch: Patch)
    | DropItem(restaurant: Id, item: Id)
  {
    /** The calls that run inside WithinTransaction and take row locks over several statements. */
    predicate IsOrderOp() {
      Checkout? || ChangeStatus? || CustomerCancel?
    }
  }

  /** The order row an order call writes. */
  function OrderIdOf(op: Op): Id
    requires op.IsOrderOp()
  {
    match op
    case Checkout(_, orderId, _) => orderId
    case ChangeStatus(_, id, _, _) => id
    case CustomerCancel(_, id, _) => id
  }

  /** A menu row as a locking query returned it. */
  datatype Fetched = Fetched(id: Id, dish: Dish)

  // ---------- ascending identifier order ----------

  ghost predicate Ascends(ids: seq<Id>) {
    forall i, j :: 0 <= i < j < |ids| ==> ids[i] < ids[j]
  }

  predicate IsLeast(m: Id, s: set<Id>) {
    m in s && forall x | x in s :: m <= x
  }

  lemma {:induction false} LeastExists(s: set<Id>)
    requires s != {}
    ensures exists m :: IsLeast(m, s)
  {
    var a :| a in s;
    var rest := s - {a};
    if rest == {} {
      assert IsLeast(a, s) by {
        forall x | x in s ensures a <= x { assert x == a || x in rest; }
      }
    } else {
      LeastExists(rest);
      var m :| IsLeast(m, rest);
      var least := if a <= m then a else m;
      assert IsLeast(least, s) by {
        forall x | x in s ensures least <= x { assert x == a || x in rest; }
      }
    }
  }

  /** The ids of a set in the order `ORDER BY id ASC` produces. */
  function Ascending(s: set<Id>): seq<Id> {
    if s == {} then []
    else
      LeastExists(s);
      var m :| IsLeast(m, s);
      [m] + Ascending(s - {m})
  }

  lemma {:induction false} AscendingIs(s: set<Id>)
    ensures Ascends(Ascending(s))
    ensures |Ascending(s)| == |s|
    ensures forall x :: x in Ascending(s) <==> x in s
  {
    if s != {} {
      LeastExists(s);
      var m :| IsLeast(m, s);
      AscendingIs(s - {m});
      var rest := Ascending(s - {m});
      assert forall j :: 0 <= j < |rest| ==> rest[j] in s - {m};
      assert Ascending(s) == [m] + rest;
    }
  }

  /** Ascending order has one representative per set. */
  lemma {:induction false} AscendsUnique(a: seq<Id>, b: seq<Id>)
    requires Ascends(a) && Ascends(b)
    requires forall x :: x in a <==> x in b
    ensures a == b
  {
    assert a != [] ==> a[0] in b;
    assert b != [] ==> b[0] in a;
    if a != [] {
      assert a[0] == b[0];
      forall x ensures x in a[1..] <==> x in b[1..] {
        assert a == [a[0]] + a[1..] && b == [b[0]] + b[1..];
        assert a[0] !in a[1..] && b[0] !in b[1..];
        assert x in a <==> x in b;
      }
      AscendsUnique(a[1..], b[1..]);
      assert a == [a[0]] + a[1..] && b == [b[0]] + b[1..];
    }
  }

  // ---------- receipts ----------

  predicate RowsCovered(rows: seq<Fetched>, want: map<Id, int>) {
    forall i :: 0 <= i < |rows| ==> rows[i].id in want
  }

  /** The rows a locking SELECT returns for ids that are all present. */
  function Fetch(dishes: map<Id, Dish>, ids: seq<Id>): (rows: seq<Fetched>)
    requires forall i :: 0 <= i < |ids| ==> ids[i] in dishes
  {
    seq(|ids|, i requires 0 <= i < |ids| => Fetched(ids[i], dishes[ids[i]]))
  }

  function Ids(rows: seq<Fetched>): (ids: seq<Id>) {
    seq(|rows|, i requires 0 <= i < |rows| => rows[i].id)
  }

  /** The rows are exactly the wanted dishes, in id order, at their versions in `dishes`. */
  ghost predicate RowsCurrent(dishes: map<Id, Dish>, rows: seq<Fetched>, want: map<Id, int>) {
    && RowsCovered(rows, want)
    && Ids(rows) == Ascending(want.Keys)
    && forall i :: 0 <= i < |rows| ==> rows[i].id in dishes && rows[i].dish == dishes[rows[i].id]
  }

  /** SELECT ... WHERE id = ANY(...) ORDER BY id ASC, when every id is there. */
  function FetchWanted(dishes: map<Id, Dish>, want: map<Id, int>): (rows: seq<Fetched>)
    requires want.Keys <= dishes.Keys
    ensures RowsCurrent(dishes, rows, want)
  {
    var ids := Ascending(want.Keys);
    AscendingIs(want.Keys);
    assert forall i :: 0 <= i < |ids| ==> ids[i] in want.Keys;
    var rows := Fetch(dishes, ids);
    assert Ids(rows) == ids;
    rows
  }

  /** Why one locked row refuses the line that asks for it, checked in this order. */
  function LineFault(row: Dish, restaurant: Id, qty: int): Option<Error> {
    if row.restaurant != restaurant then Some(RestaurantMismatch)
    else if !row.available then Some(ItemUnavailable)
    else if row.stock < qty then Some(OutOfStock)
    else None
  }

  /** The first fault in row order, if any row refuses its line. */
  function LinesFault(rows: seq<Fetched>, restaurant: Id, want: map<Id, int>): Option<Error>
    requires RowsCovered(rows, want)
  {
    if rows == [] then None
    else
      var n := |rows| - 1;
      var earlier := LinesFault(rows[..n], restaurant, want);
      if earlier.Some? then earlier else LineFault(rows[n].dish, restaurant, want[rows[n].id])
  }

  function ItemOf(row: Fetched, qty: int): OrderItem {
    OrderItem(row.id, row.dish.name, row.dish.price, qty)
  }

  function Receipt(rows: seq<Fetched>, want: map<Id, int>): (items: seq<OrderItem>)
    requires RowsCovered(rows, want)
  {
    seq(|rows|, i requires 0 <= i < |rows| => ItemOf(rows[i], want[rows[i].id]))
  }

  /** The exact, unbounded price of a receipt. */
  function ExactTotal(items: seq<OrderItem>): int {
    if items == [] then 0
    else
      var n := |items| - 1;
      ExactTotal(items[..n]) + items[n].price * items[n].qty
  }

  /** Units of dish d on a receipt. */
  function QtyOf(items: seq<OrderItem>, d: Id): int {
    if items == [] then 0
    else
      var n := |items| - 1;
      QtyOf(items[..n], d) + (if items[n].dish == d then items[n].qty else 0)
  }

  /** The whole dish table with a receipt taken out of stock (`back` false) or returned. */
  function Restock(dishes: map<Id, Dish>, items: seq<OrderItem>, back: bool): (after: map<Id, Dish>)
  {
    map d | d in dishes ::
      dishes[d].(stock := if back then dishes[d].stock + QtyOf(items, d) else dishes[d].stock - QtyOf(items, d))
  }

  /** Why returning a receipt line by line fails, if it does: a dish that is gone, or a stock that
      no longer fits the int4 column. */
  function RefundFault(dishes: map<Id, Dish>, items: seq<OrderItem>): Option<Error> {
    if items == [] then None
    else
      var n := |items| - 1;
      var earlier := RefundFault(dishes, items[..n]);
      if earlier.Some? then earlier
      else if items[n].dish !in dishes then Some(MenuItemNotFound)
      else if dishes[items[n].dish].stock + items[n].qty > INT4_MAX then Some(InvalidInput)
      else None
  }

  // ---------- orders ----------

  function NewOrder(input: CheckoutInput, items: seq<OrderItem>, total: int): Order {
    Order(input.user, input.restaurant, Created, total, items, [Entry(None, Created, System)])
  }

  /** The checkout once its rows are locked: the first refusal in row order, or the whole receipt
      out of stock and the order in. */
  function Sale(db: Db, input: CheckoutInput, orderId: Id, rows: seq<Fetched>, want: map<Id, int>): Result<Db>
    requires RowsCovered(rows, want)
  {
    var refused := LinesFault(rows, input.restaurant, want);
    if refused.Some? then Err(refused.value)
    else
      var items := Receipt(rows, want);
      var total := Wrap64(ExactTotal(items));
      if total < 0 then Err(InvalidInput)
      else if orderId in db.orders then Err(Conflict)
      else Ok(db.(dishes := Restock(db.dishes, items, false),
                  orders := db.orders[orderId := NewOrder(input, items, total)]))
  }

  /** What stops a checkout before it looks at the menu. */
  function EntryFault(input: CheckoutInput, sample: Option<RestaurantRow>): Option<Error> {
    var fault := InputFault(input);
    if fault.Some? then fault
    else if sample.None? then Some(RestaurantNotFound)
    else if !sample.value.active then Some(RestaurantInactive)
    else None
  }

  function CheckoutSpec(db: Db, input: CheckoutInput, orderId: Id, sample: Option<RestaurantRow>): Result<Db>
  {
    var fault := EntryFault(input, sample);
    var want := Wanted(input.lines);
    if fault.Some? then Err(fault.value)
    else if !(want.Keys <= db.dishes.Keys) then Err(MenuItemNotFound)
    else Sale(db, input, orderId, FetchWanted(db.dishes, want), want)
  }

  /** What forbids `actor` to move `order` to `to`. */
  function MoveFault(order: Order, to: Status, actor: Actor): Option<Error> {
    if to == Cancelled then
      if CanBeCancelledBy(order.status, actor) then None else Some(OrderAlreadyProcessed)
    else if CanTransitionTo(order.status, to) then None
    else Some(InvalidStatusTransition)
  }

  function Stamp(order: Order, to: Status, actor: Actor): Order {
    order.(status := to, history := order.history + [Entry(Some(order.status), to, actor)])
  }

  /** Moves an order the caller owns; a cancellation returns the receipt first. */
  function MoveSpec(db: Db, id: Id, to: Status, actor: Actor): Result<Db>
    requires id in db.orders
  {
    var order := db.orders[id];
    var forbidden := MoveFault(order, to, actor);
    if forbidden.Some? then Err(forbidden.value)
    else
      var moved := db.orders[id := Stamp(order, to, actor)];
      if to != Cancelled then Ok(db.(orders := moved))
      else
        var broken := RefundFault(db.dishes, order.items);
        if broken.Some? then Err(broken.value)
        else Ok(db.(dishes := Restock(db.dishes, order.items, true), orders := moved))
  }

  // ---------- menu ----------

  /** Column checks of a dish row. */
  predicate DishInRange(dish: Dish) {
    && 0 <= dish.price < INT64_HALF
    && 0 <= dish.stock <= INT4_MAX
  }

  predicate PatchInRange(patch: Patch) {
    && (patch.price.Some? ==> 0 <= patch.price.value < INT64_HALF)
    && (patch.stock.Some? ==> 0 <= patch.stock.value <= INT4_MAX)
    && (patch.category.Some? ==> patch.category.value != NIL)
  }

  const NoChange: Patch := Patch(None, None, None, None, None, None)

  function Or<T>(o: Option<T>, current: T): T {
    if o.Some? then o.value else current
  }

  function Patched(dish: Dish, patch: Patch): Dish {
    Dish(dish.restaurant, Or(patch.category, dish.category), Or(patch.name, dish.name),
         Or(patch.description, dish.description), Or(patch.price, dish.price),
         Or(patch.stock, dish.stock), Or(patch.available, dish.available))
  }

  predicate CategoryOf(categories: map<Id, Category>, category: Id, restaurant: Id) {
    category in categories && categories[category].restaurant == restaurant
  }

  predicate NameTaken(categories: map<Id, Category>, restaurant: Id, name: string, but: Id) {
    exists c | c in categories :: c != but && categories[c] == Category(restaurant, name)
  }

  predicate CategoryUsed(db: Db, category: Id) {
    exists d | d in db.dishes :: db.dishes[d].category == category
  }

  predicate Mentions(order: Order, dish: Id) {
    exists i :: 0 <= i < |order.items| && order.items[i].dish == dish
  }

  predicate DishOrdered(db: Db, dish: Id) {
    exists o | o in db.orders :: Mentions(db.orders[o], dish)
  }

  /** Validation and ownership, the part of a menu call that runs before its one write. */
  function MenuFault(db: Db, op: Op): Option<Error>
    requires !op.IsOrderOp()
  {
    match op
    case AddCategory(restaurant, _, _) =>
      if restaurant == NIL then Some(InvalidInput) else None
    case RenameCategory(restaurant, category, _) =>
      if restaurant == NIL || category == NIL then Some(InvalidInput)
      else if !CategoryOf(db.categories, category, restaurant) then Some(CategoryNotFound) else None
    case DropCategory(restaurant, category) =>
      if restaurant == NIL || category == NIL then Some(InvalidInput)
      else if !CategoryOf(db.categories, category, restaurant) then Some(CategoryNotFound) else None
    case AddItem(_, dish) =>
      if dish.restaurant == NIL || dish.category == NIL || !DishInRange(dish) then Some(InvalidInput)
      else if !CategoryOf(db.categories, dish.category, dish.restaurant) then Some(CategoryNotFound) else None
    case EditItem(restaurant, item, patch) =>
      if !PatchInRange(patch) || restaurant == NIL || item == NIL then Some(InvalidInput)
      else if item !in db.dishes || db.dishes[item].restaurant != restaurant then Some(MenuItemNotFound)
      else if patch.category.Some? && !CategoryOf(db.categories, patch.category.value, restaurant)
      then Some(CategoryNotFound)
      else None
    case DropItem(restaurant, item) =>
      if restaurant == NIL || item == NIL then Some(InvalidInput)
      else if item !in db.dishes || db.dishes[item].restaurant != restaurant then Some(MenuItemNotFound)
      else None
  }

  /** The single SQL write of a menu call, under the table constraints alone: primary keys, the
      unique category name, CHECK ranges, the composite and the RESTRICT foreign keys. */
  function Statement(db: Db, op: Op): Result<Db>
    requires !op.IsOrderOp()
  {
    match op
    case AddCategory(restaurant, category, name) =>
      if category in db.categories || NameTaken(db.categories, restaurant, name, category) then Err(Conflict)
      else Ok(db.(categories := db.categories[category := Category(restaurant, name)]))
    case RenameCategory(_, category, name) =>
      if category !in db.categories then Err(CategoryNotFound)
      else if NameTaken(db.categories, db.categories[category].restaurant, name, category) then Err(Conflict)
      else Ok(db.(categories := db.categories[category := db.categories[category].(name := name)]))
    case DropCategory(_, category) =>
      if category !in db.categories then Err(CategoryNotFound)
      else if CategoryUsed(db, category) then Err(Conflict)
      else Ok(db.(categories := db.categories - {category}))
    case AddItem(item, dish) =>
      if item in db.dishes then Err(Conflict)
      else if !DishInRange(dish) then Err(InvalidInput)
      else if !CategoryOf(db.categories, dish.category, dish.restaurant) then Err(Conflict)
      else Ok(db.(dishes := db.dishes[item := dish]))
    case EditItem(_, item, patch) =>
      if item !in db.dishes then Err(MenuItemNotFound)
      else if patch == NoChange then Ok(db)
      else
        var dish := Patched(db.dishes[item], patch);
        if !DishInRange(dish) then Err(InvalidInput)
        else if !CategoryOf(db.categories, dish.category, dish.restaurant) then Err(Conflict)
        else Ok(db.(dishes := db.dishes[item := dish]))
    case DropItem(_, item) =>
      if item !in db.dishes then Err(MenuItemNotFound)
      else if DishOrdered(db, item) then Err(Conflict)
      else Ok(db.(dishes := db.dishes - {item}))
  }

  // ---------- one call, and a serial history of calls ----------

  function Apply(db: Db, op: Op): Result<Db> {
    match op
    case Checkout(input, orderId, sample) => CheckoutSpec(db, input, orderId, sample)
    case ChangeStatus(restaurant, id, to, _) =>
      if id == NIL || restaurant == NIL then Err(InvalidInput)
      else if id !in db.orders || db.orders[id].restaurant != restaurant then Err(NotFound)
      else MoveSpec(db, id, to, Restaurant)
    case CustomerCancel(user, id, _) =>
      if id == NIL || user == NIL then Err(InvalidInput)
      else if id !in db.orders || db.orders[id].user != user then Err(NotFound)
      else MoveSpec(db, id, Cancelled, Customer)
    case _ =>
      var fault := MenuFault(db, op);
      if fault.Some? then Err(fault.value) else Statement(db, op)
  }

  /** The calls named by `log`, one at a time, every one of them accepted. */
  function Replay(init: Db, ops: seq<Op>, log: seq<nat>): Option<Db>
    requires forall k :: 0 <= k < |log| ==> log[k] < |ops|
  {
    if log == [] then Some(init)
    else
      var n := |log| - 1;
      var before := Replay(init, ops, log[..n]);
      if before.None? then None
      else
        var after := Apply(before.value, ops[log[n]]);
        if after.Ok? then Some(after.value) else None
  }
}
