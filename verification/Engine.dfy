/** The concurrent engine: any number of service calls interleaved statement by statement over
    shared tables with row locks, as PostgreSQL runs them at Read Committed (sections 13.2.1 and
    13.3.2 of its documentation). Rows are changed in place; a session keeps the before-image of
    every row it changed, and what others see of such a row is that image. Waiting for a lock is
    the absence of a step. */
module Engine {
  import opened Domain
  import opened Spec

  datatype Row = DishRow(id: Id) | OrderRow(id: Id) | CategoryRow(id: Id)

  datatype Pc =
    | Start
    | Scanning                           // SELECT ... FOR UPDATE has taken its snapshot next
    | Locking(todo: seq<Id>)             // rows of the snapshot still to lock, in id order
    | Selling(line: nat, total: int)     // checkout loop: lines done, running int64 total
    | Judging                            // order row locked, ownership and transition next
    | Refunding(line: nat)               // cancellation loop: receipt lines returned
    | Stamping                           // UPDATE orders and the audit INSERT are next
    | Closing                            // COMMIT is next
    | Vetting                            // a dish update that still has to check its category
    | Writing                            // the one statement of a menu call is next
    | Checking                           // it has changed its row; its constraint check and COMMIT are next
    | Notifying                          // committed, webhook dispatch is next
    | Finished                           // committed
    | Rejected(error: Error)             // rolled back

  /** What a session did to the one order row it may touch. */
  datatype OrderUndo = Untouched | Inserted | Replaced(image: Order)

  /** One service call in flight: its request, its program counter, the rows it has read under
      lock, its undo log, and the menu ids it has observed. */
  datatype Session = Session(
    op: Op, pc: Pc, rows: seq<Fetched>, order: Option<Order>,
    before: map<Id, Dish>, orderUndo: OrderUndo, known: set<Id>)
  {
    predicate Committed() { pc.Notifying? || pc.Finished? }
    predicate Over() { pc.Finished? || pc.Rejected? }
  }

  /** `log` names the committed sessions in commit order, `notified` the dispatch attempts. */
  datatype State = State(
    db: Db, locks: map<Row, nat>, sessions: seq<Session>, log: seq<nat>, notified: seq<nat>)

  function NewSession(op: Op): Session {
    Session(op, Start, [], None, map[], Untouched, {})
  }

  function Init(db: Db, ops: seq<Op>): State {
    State(db, map[], seq(|ops|, i requires 0 <= i < |ops| => NewSession(ops[i])), [], [])
  }

  // ---------- pieces of a step ----------

  function UrlOf(op: Op): string
    requires op.IsOrderOp()
  {
    match op
    case Checkout(_, _, sample) => if sample.Some? then sample.value.url else ""
    case ChangeStatus(_, _, _, url) => url
    case CustomerCancel(_, _, url) => url
  }

  function TargetOf(op: Op): Status
    requires op.ChangeStatus? || op.CustomerCancel?
  {
    if op.ChangeStatus? then op.status else Cancelled
  }

  function ActorOf(op: Op): Actor
    requires op.ChangeStatus? || op.CustomerCancel?
  {
    if op.ChangeStatus? then Restaurant else Customer
  }

  /** The caller owns the order, and its status lets this actor make the move. */
  function VerdictOn(op: Op, order: Order): Option<Error>
    requires op.ChangeStatus? || op.CustomerCancel?
  {
    if op.ChangeStatus? && order.restaurant != op.restaurant then Some(NotFound)
    else if op.CustomerCancel? && order.user != op.user then Some(NotFound)
    else MoveFault(order, TargetOf(op), ActorOf(op))
  }

  /** The row an update or a delete of the menu changes. */
  function Target(op: Op): Option<Row> {
    match op
    case RenameCategory(_, category, _) => Some(CategoryRow(category))
    case DropCategory(_, category) => Some(CategoryRow(category))
    case EditItem(_, item, patch) => if patch == NoChange then None else Some(DishRow(item))
    case DropItem(_, item) => Some(DishRow(item))
    case _ => None
  }

  /** The statement goes on to a constraint check on other rows while it holds its own: a new name
      against the unique index, a deleted category against its dishes, a new category of a dish. */
  predicate ChecksLater(db: Db, op: Op) {
    match op
    case RenameCategory(_, category, name) => category in db.categories && db.categories[category].name != name
    case DropCategory(_, category) => category in db.categories
    case EditItem(_, item, patch) =>
      item in db.dishes && patch.category.Some? && patch.category.value != db.dishes[item].category
    case _ => false
  }

  /** The rows a constraint check reads: the owners of a wanted name, the dishes of a deleted category,
      the category that a new or moved dish refers to. */
  function CheckedRows(db: Db, op: Op): set<Row> {
    match op
    case AddCategory(restaurant, category, name) => NameOwners(db.categories, restaurant, name, category)
    case RenameCategory(_, category, name) =>
      if ChecksLater(db, op) then NameOwners(db.categories, db.categories[category].restaurant, name, category) else {}
    case DropCategory(_, category) =>
      if ChecksLater(db, op) then set d | d in db.dishes && db.dishes[d].category == category :: DishRow(d) else {}
    case AddItem(_, dish) => {CategoryRow(dish.category)}
    case EditItem(_, _, patch) => if ChecksLater(db, op) then {CategoryRow(patch.category.value)} else {}
    case _ => {}
  }

  function NameOwners(categories: map<Id, Category>, restaurant: Id, name: string, but: Id): set<Row> {
    set c | c in categories && c != but && categories[c] == Category(restaurant, name) :: CategoryRow(c)
  }

  function Put(s: State, i: nat, t: Session): State
    requires i < |s.sessions|
  {
    s.(sessions := s.sessions[i := t])
  }

  function Goto(s: State, i: nat, pc: Pc): State
    requires i < |s.sessions|
  {
    Put(s, i, s.sessions[i].(pc := pc))
  }

  predicate Free(s: State, row: Row) { row !in s.locks }

  /** Row locks live exactly as long as their transaction. */
  function Unlocked(locks: map<Row, nat>, i: nat): map<Row, nat> {
    map r | r in locks && locks[r] != i :: locks[r]
  }

  /** Rollback: every before-image goes back, every lock is released, an inserted order vanishes. */
  function Undone(db: Db, t: Session): Db {
    db.(dishes := db.dishes + t.before,
        orders := if !t.op.IsOrderOp() then db.orders
                  else match t.orderUndo
                       case Untouched => db.orders
                       case Inserted => db.orders - {OrderIdOf(t.op)}
                       case Replaced(image) => db.orders[OrderIdOf(t.op) := image])
  }

  function Reject(s: State, i: nat, error: Error): State
    requires i < |s.sessions|
  {
    var t := s.sessions[i];
    State(Undone(s.db, t), Unlocked(s.locks, i),
          s.sessions[i := t.(pc := Rejected(error), before := map[], orderUndo := Untouched)],
          s.log, s.notified)
  }

  function Commit(s: State, i: nat): State
    requires i < |s.sessions|
  {
    var t := s.sessions[i];
    State(s.db, Unlocked(s.locks, i),
          s.sessions[i := t.(pc := if t.op.IsOrderOp() then Notifying else Finished,
                             before := map[], orderUndo := Untouched)],
          s.log + [i], s.notified)
  }

  /** An order row inserted by a transaction still in flight is invisible to everybody else. */
  predicate Invisible(s: State, id: Id) {
    && OrderRow(id) in s.locks
    && s.locks[OrderRow(id)] < |s.sessions|
    && s.sessions[s.locks[OrderRow(id)]].orderUndo == Inserted
    && s.sessions[s.locks[OrderRow(id)]].op.IsOrderOp()
    && OrderIdOf(s.sessions[s.locks[OrderRow(id)]].op) == id
  }

  // ---------- steps of a checkout ----------

  /** Validation, BEGIN and the unlocked read of the restaurant. */
  function BeginCheckout(s: State, i: nat): State
    requires i < |s.sessions| && s.sessions[i].op.Checkout?
  {
    var op := s.sessions[i].op;
    var fault := EntryFault(op.input, op.sample);
    if fault.Some? then Reject(s, i, fault.value) else Goto(s, i, Scanning)
  }

  /** The locking SELECT fixes which rows it will visit, sorted by id. */
  function Scan(s: State, i: nat): State
    requires i < |s.sessions| && s.sessions[i].op.Checkout?
  {
    var t := s.sessions[i];
    var found := Wanted(t.op.input.lines).Keys * s.db.dishes.Keys;
    Put(s, i, t.(pc := Locking(Ascending(found)), known := t.known + found))
  }

  /** Lock one row and read its latest version; a row deleted meanwhile is skipped. When all are
      visited, the row count decides. */
  function LockNext(s: State, i: nat): Option<State>
    requires i < |s.sessions| && s.sessions[i].op.Checkout? && s.sessions[i].pc.Locking?
  {
    var t := s.sessions[i];
    var todo := t.pc.todo;
    if todo == [] then
      if |t.rows| != |t.op.input.lines| then Some(Reject(s, i, MenuItemNotFound))
      else Some(Goto(s, i, Selling(0, 0)))
    else if todo[0] !in s.db.dishes then Some(Goto(s, i, Locking(todo[1..])))
    else if !Free(s, DishRow(todo[0])) then None
    else
      var read := Fetched(todo[0], s.db.dishes[todo[0]]);
      Some(Put(s, i, t.(pc := Locking(todo[1..]), rows := t.rows + [read]))
           .(locks := s.locks[DishRow(todo[0]) := i]))
  }

  /** One turn of the checkout loop, with the guarded UPDATE of DecrementStock. */
  function Sell(s: State, i: nat): State
    requires i < |s.sessions| && s.sessions[i].op.Checkout? && s.sessions[i].pc.Selling?
    requires s.sessions[i].pc.line < |s.sessions[i].rows|
  {
    var t := s.sessions[i];
    var row := t.rows[t.pc.line];
    var want := Wanted(t.op.input.lines);
    var qty := if row.id in want then want[row.id] else 0;
    var fault := LineFault(row.dish, t.op.input.restaurant, qty);
    if fault.Some? then Reject(s, i, fault.value)
    else if row.id !in s.db.dishes || s.db.dishes[row.id].stock < qty || !s.db.dishes[row.id].available
    then Reject(s, i, OutOfStock)
    else
      var now := s.db.dishes[row.id];
      var total := Wrap64(t.pc.total + Wrap64(row.dish.price * qty));
      Put(s, i, t.(pc := Selling(t.pc.line + 1, total), before := t.before[row.id := now]))
      .(db := s.db.(dishes := s.db.dishes[row.id := now.(stock := now.stock - qty)]))
  }

  /** The receipt a checkout has accumulated from its locked rows. */
  function ReceiptSoFar(t: Session): seq<OrderItem>
    requires t.op.Checkout?
  {
    var want := Wanted(t.op.input.lines);
    if RowsCovered(t.rows, want) then Receipt(t.rows, want) else []
  }

  /** INSERT of the order, its lines and its first audit entry; the CHECK on the total applies. */
  function Insert(s: State, i: nat): State
    requires i < |s.sessions| && s.sessions[i].op.Checkout? && s.sessions[i].pc.Selling?
  {
    var t := s.sessions[i];
    var id := t.op.orderId;
    if t.pc.total < 0 then Reject(s, i, InvalidInput)
    else if id in s.db.orders then Reject(s, i, Conflict)
    else
      Put(s, i, t.(pc := Closing, orderUndo := Inserted))
      .(db := s.db.(orders := s.db.orders[id := NewOrder(t.op.input, ReceiptSoFar(t), t.pc.total)]),
        locks := s.locks[OrderRow(id) := i])
  }

  // ---------- steps of a status change or a cancellation ----------

  /** Validation, BEGIN and SELECT ... FOR UPDATE of the order row. */
  function LockOrder(s: State, i: nat): Option<State>
    requires i < |s.sessions| && (s.sessions[i].op.ChangeStatus? || s.sessions[i].op.CustomerCancel?)
  {
    var t := s.sessions[i];
    var id := OrderIdOf(t.op);
    var caller := if t.op.ChangeStatus? then t.op.restaurant else t.op.user;
    if id == NIL || caller == NIL then Some(Reject(s, i, InvalidInput))
    else if id !in s.db.orders || Invisible(s, id) then Some(Reject(s, i, NotFound))
    else if !Free(s, OrderRow(id)) then None
    else
      Some(Put(s, i, t.(pc := Judging, order := Some(s.db.orders[id])))
           .(locks := s.locks[OrderRow(id) := i]))
  }

  function Judge(s: State, i: nat): State
    requires i < |s.sessions| && (s.sessions[i].op.ChangeStatus? || s.sessions[i].op.CustomerCancel?)
    requires s.sessions[i].order.Some?
  {
    var t := s.sessions[i];
    var fault := VerdictOn(t.op, t.order.value);
    if fault.Some? then Reject(s, i, fault.value)
    else Goto(s, i, if TargetOf(t.op) == Cancelled then Refunding(0) else Stamping)
  }

  /** One turn of the refund loop: IncrementStock locks the dish row and adds the quantity. */
  function Refund(s: State, i: nat): Option<State>
    requires i < |s.sessions| && s.sessions[i].pc.Refunding? && s.sessions[i].order.Some?
  {
    var t := s.sessions[i];
    var items := t.order.value.items;
    var k := t.pc.line;
    if k >= |items| then Some(Goto(s, i, Stamping))
    else
      var d := items[k].dish;
      if d !in s.db.dishes then Some(Reject(s, i, MenuItemNotFound))
      else if !Free(s, DishRow(d)) then None
      else
        var now := s.db.dishes[d];
        if now.stock + items[k].qty > INT4_MAX then Some(Reject(s, i, InvalidInput))
        else
          Some(Put(s, i, t.(pc := Refunding(k + 1), before := t.before[d := now]))
               .(db := s.db.(dishes := s.db.dishes[d := now.(stock := now.stock + items[k].qty)]),
                 locks := s.locks[DishRow(d) := i]))
  }

  /** applyStatusChange: the status UPDATE and the audit INSERT. */
  function StampOrder(s: State, i: nat): State
    requires i < |s.sessions| && (s.sessions[i].op.ChangeStatus? || s.sessions[i].op.CustomerCancel?)
    requires s.sessions[i].order.Some?
  {
    var t := s.sessions[i];
    var stamped := Stamp(t.order.value, TargetOf(t.op), ActorOf(t.op));
    Put(s, i, t.(pc := Closing, orderUndo := Replaced(t.order.value)))
    .(db := s.db.(orders := s.db.orders[OrderIdOf(t.op) := stamped]))
  }

  // ---------- steps of a menu call ----------

  /** The menu id whose owner a call reads before its write. */
  function Observed(op: Op): set<Id> {
    match op
    case RenameCategory(_, category, _) => {category}
    case DropCategory(_, category) => {category}
    case EditItem(_, item, _) => {item}
    case DropItem(_, item) => {item}
    case _ => {}
  }

  /** A dish update checks the dish first and its new category in a second read. */
  function FirstCheck(op: Op): Op {
    if op.EditItem? then op.(patch := op.patch.(category := None)) else op
  }

  /** Validation and the unlocked ownership read that precedes a menu write. */
  function BeginMenu(s: State, i: nat): State
    requires i < |s.sessions| && !s.sessions[i].op.IsOrderOp()
  {
    var t := s.sessions[i];
    var fault := MenuFault(s.db, FirstCheck(t.op));
    if t.op.EditItem? && !PatchInRange(t.op.patch) then Reject(s, i, InvalidInput)
    else if fault.Some? then Reject(s, i, fault.value)
    else
      var vetting := t.op.EditItem? && t.op.patch.category.Some?;
      Put(s, i, t.(pc := if vetting then Vetting else Writing, known := t.known + Observed(t.op)))
  }

  /** The second unlocked read of a dish update that names a category. */
  function Vet(s: State, i: nat): State
    requires i < |s.sessions| && s.sessions[i].op.EditItem?
  {
    var op := s.sessions[i].op;
    if op.patch.category.Some? && !CategoryOf(s.db.categories, op.patch.category.value, op.restaurant)
    then Reject(s, i, CategoryNotFound)
    else Goto(s, i, Writing)
  }

  /** Somebody else holds the row in a mode that stops a constraint check. Checks ask for FOR KEY SHARE:
      a renamed or deleted category and a dish selected FOR UPDATE by a checkout stop them, the update
      of a dish's other columns does not. */
  predicate Bars(s: State, i: nat, r: Row) {
    && r in s.locks && s.locks[r] != i
    && (r.CategoryRow? || (s.locks[r] < |s.sessions| && s.sessions[s.locks[r]].op.Checkout?))
  }

  predicate Barred(s: State, i: nat)
    requires i < |s.sessions|
  {
    exists r | r in CheckedRows(s.db, s.sessions[i].op) :: Bars(s, i, r)
  }

  /** The statement's outcome, autocommitted. */
  function Settle(s: State, i: nat): State
    requires i < |s.sessions| && !s.sessions[i].op.IsOrderOp()
  {
    match Statement(s.db, s.sessions[i].op)
    case Err(error) => Reject(s, i, error)
    case Ok(db) => Commit(s.(db := db), i)
  }

  /** The one statement of a menu call: wait for its row, then settle at once or hold the row during a
      constraint check. An insert holds no row that others could wait for while it checks. */
  function Write(s: State, i: nat): Option<State>
    requires i < |s.sessions| && !s.sessions[i].op.IsOrderOp()
  {
    var op := s.sessions[i].op;
    if Target(op).Some? && !Free(s, Target(op).value) then None
    else if Target(op).Some? && ChecksLater(s.db, op) then
      Some(Goto(s, i, Checking).(locks := s.locks[Target(op).value := i]))
    else if Barred(s, i) then None
    else Some(Settle(s, i))
  }

  /** The constraint check of a held row. */
  function Check(s: State, i: nat): Option<State>
    requires i < |s.sessions| && !s.sessions[i].op.IsOrderOp()
  {
    if Barred(s, i) then None else Some(Settle(s, i))
  }

  /** notifyPartner, after the commit and outside the transaction. */
  function Notify(s: State, i: nat): State
    requires i < |s.sessions| && s.sessions[i].op.IsOrderOp()
  {
    var quiet := UrlOf(s.sessions[i].op) == "";
    Goto(s, i, Finished).(notified := if quiet then s.notified else s.notified + [i])
  }

  // ---------- the step relation ----------

  function AdvanceCheckout(s: State, i: nat): Option<State>
    requires i < |s.sessions| && s.sessions[i].op.Checkout?
  {
    var t := s.sessions[i];
    match t.pc
    case Start => Some(BeginCheckout(s, i))
    case Scanning => Some(Scan(s, i))
    case Locking(_) => LockNext(s, i)
    case Selling(line, _) => Some(if line < |t.rows| then Sell(s, i) else Insert(s, i))
    case Closing => Some(Commit(s, i))
    case Notifying => Some(Notify(s, i))
    case _ => None
  }

  function AdvanceMove(s: State, i: nat): Option<State>
    requires i < |s.sessions| && (s.sessions[i].op.ChangeStatus? || s.sessions[i].op.CustomerCancel?)
  {
    var t := s.sessions[i];
    match t.pc
    case Start => LockOrder(s, i)
    case Judging => if t.order.Some? then Some(Judge(s, i)) else None
    case Refunding(_) => if t.order.Some? then Refund(s, i) else None
    case Stamping => if t.order.Some? then Some(StampOrder(s, i)) else None
    case Closing => Some(Commit(s, i))
    case Notifying => Some(Notify(s, i))
    case _ => None
  }

  function AdvanceMenu(s: State, i: nat): Option<State>
    requires i < |s.sessions| && !s.sessions[i].op.IsOrderOp()
  {
    match s.sessions[i].pc
    case Start => Some(BeginMenu(s, i))
    case Vetting => if s.sessions[i].op.EditItem? then Some(Vet(s, i)) else None
    case Writing => Write(s, i)
    case Checking => Check(s, i)
    case _ => None
  }

  /** The next statement of session i; `None` when it waits for a lock or is over. */
  function Advance(s: State, i: nat): Option<State>
    requires i < |s.sessions|
  {
    if s.sessions[i].op.Checkout? then AdvanceCheckout(s, i)
    else if s.sessions[i].op.IsOrderOp() then AdvanceMove(s, i)
    else AdvanceMenu(s, i)
  }

  /** A call may lose its connection or its context at any moment before COMMIT. */
  function Interrupt(s: State, i: nat): Option<State>
    requires i < |s.sessions|
  {
    if s.sessions[i].Committed() || s.sessions[i].Over() then None else Some(Reject(s, i, Interrupted))
  }

  ghost predicate Steps(s: State, i: nat, s': State) {
    i < |s.sessions| && (Advance(s, i) == Some(s') || Interrupt(s, i) == Some(s'))
  }

  ghost predicate Next(s: State, s': State) {
    exists i :: Steps(s, i, s')
  }

  ghost predicate IsRun(db: Db, ops: seq<Op>, run: seq<State>) {
    && run != []
    && run[0] == Init(db, ops)
    && forall k :: 0 < k < |run| ==> Next(run[k - 1], run[k])
  }

  // ---------- what the others see ----------

  /** The version of a dish row that a transaction other than its writer reads. */
  function DishImage(s: State, d: Id): Dish
    requires d in s.db.dishes
  {
    if DishRow(d) in s.locks && s.locks[DishRow(d)] < |s.sessions|
       && d in s.sessions[s.locks[DishRow(d)]].before
    then s.sessions[s.locks[DishRow(d)]].before[d]
    else s.db.dishes[d]
  }

  function OrderImage(s: State, o: Id): Order
    requires o in s.db.orders
  {
    if OrderRow(o) in s.locks && s.locks[OrderRow(o)] < |s.sessions|
       && s.sessions[s.locks[OrderRow(o)]].orderUndo.Replaced?
    then s.sessions[s.locks[OrderRow(o)]].orderUndo.image
    else s.db.orders[o]
  }

  /** The committed tables: every row as if all transactions in flight were rolled back. */
  function Visible(s: State): Db {
    Db(s.db.categories,
       map d | d in s.db.dishes :: DishImage(s, d),
       map o | o in s.db.orders && !Invisible(s, o) :: OrderImage(s, o))
  }
}
