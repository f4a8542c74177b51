/** The invariant of the concurrent engine: who holds which lock, what each session's program
    counter says about the rows it holds and about its undo log, and which new identifiers are
    still to come. */
module EngineInvariant {
  import opened Domain
  import opened Spec
  import opened Tables
  import opened Engine

  // ---------- locks ----------

  function DishRows(ids: seq<Id>): set<Row> {
    set d | d in ids :: DishRow(d)
  }

  function RefundedDishes(items: seq<OrderItem>, line: nat): seq<Id> {
    if line <= |items| then DishesOf(items[..line]) else []
  }

  /** The rows a session must hold, read off its program counter and what it has read. */
  function Footprint(t: Session): set<Row> {
    if t.op.Checkout? then
      match t.pc
      case Locking(_) => DishRows(Ids(t.rows))
      case Selling(_, _) => DishRows(Ids(t.rows))
      case Closing => DishRows(Ids(t.rows)) + {OrderRow(t.op.orderId)}
      case _ => {}
    else if t.op.IsOrderOp() && t.order.Some? then
      var items := t.order.value.items;
      var all := if TargetOf(t.op) == Cancelled then DishRows(DishesOf(items)) else {};
      match t.pc
      case Judging => {OrderRow(OrderIdOf(t.op))}
      case Refunding(line) => {OrderRow(OrderIdOf(t.op))} + DishRows(RefundedDishes(items, line))
      case Stamping => {OrderRow(OrderIdOf(t.op))} + all
      case Closing => {OrderRow(OrderIdOf(t.op))} + all
      case _ => {}
    else if !t.op.IsOrderOp() && t.pc.Checking? && Target(t.op).Some? then {Target(t.op).value}
    else {}
  }

  /** The lock table holds exactly the rows the program counters account for, each by one session. */
  ghost predicate LocksOk(s: State) {
    && (forall r | r in s.locks :: s.locks[r] < |s.sessions| && r in Footprint(s.sessions[s.locks[r]]))
    && (forall i, r :: 0 <= i < |s.sessions| && r in Footprint(s.sessions[i]) ==>
          r in s.locks && s.locks[r] == i)
  }

  // ---------- one session against the tables ----------

  ghost predicate Clean(t: Session) {
    t.before == map[] && t.orderUndo == Untouched
  }

  ghost predicate Buying(t: Session) {
    t.op.Checkout? && EntryFault(t.op.input, t.op.sample).None?
  }

  function WantOf(t: Session): map<Id, int>
    requires t.op.Checkout?
  {
    Wanted(t.op.input.lines)
  }

  /** The undo log of a checkout: the rows it has sold, as it read them. */
  function Images(rows: seq<Fetched>, line: nat): map<Id, Dish>
    requires line <= |rows|
  {
    if line == 0 then map[] else Images(rows, line - 1)[rows[line - 1].id := rows[line - 1].dish]
  }

  lemma {:induction false} ImagesAre(rows: seq<Fetched>, line: nat)
    requires line <= |rows| && Ascends(Ids(rows))
    ensures forall j :: 0 <= j < line ==>
              rows[j].id in Images(rows, line) && Images(rows, line)[rows[j].id] == rows[j].dish
    ensures forall d | d in Images(rows, line) :: d in Ids(rows[..line])
  {
    if line > 0 {
      ImagesAre(rows, line - 1);
      forall j | 0 <= j < line - 1 ensures rows[j].id != rows[line - 1].id {
        assert Ids(rows)[j] < Ids(rows)[line - 1];
      }
      assert Ids(rows[..line]) == Ids(rows[..line - 1]) + [rows[line - 1].id];
    }
  }

  /** Some of the wanted rows are locked and unchanged, the rest of the snapshot is still to come. */
  ghost predicate LockedSoFar(t: Session, todo: seq<Id>, dishes: map<Id, Dish>)
    requires t.op.Checkout?
  {
    && Ascends(Ids(t.rows) + todo)
    && (forall x | x in Ids(t.rows) + todo :: x in WantOf(t) && x in t.known)
    && (forall j :: 0 <= j < |t.rows| ==> t.rows[j].id in dishes && dishes[t.rows[j].id] == t.rows[j].dish)
    && (forall x | x in WantOf(t) && x in t.known :: x in Ids(t.rows) || x in todo || x !in dishes)
  }

  /** The rows are exactly the wanted dishes; the first `line` of them are sold in place, their
      before-images are in the undo log, and nothing else is. */
  ghost predicate SoldSoFar(t: Session, line: nat, dishes: map<Id, Dish>)
    requires t.op.Checkout?
  {
    var want := WantOf(t);
    && RowsCovered(t.rows, want)
    && Ids(t.rows) == Ascending(want.Keys)
    && line <= |t.rows|
    && (forall j :: 0 <= j < |t.rows| ==>
          && t.rows[j].id in dishes
          && dishes[t.rows[j].id] ==
             if j < line then t.rows[j].dish.(stock := t.rows[j].dish.stock - want[t.rows[j].id])
             else t.rows[j].dish)
    && (forall j :: 0 <= j < line ==>
          LineFault(t.rows[j].dish, t.op.input.restaurant, want[t.rows[j].id]).None?)
    && t.before == Images(t.rows, line)
  }

  /** A status change past its order lock: it holds the latest version of a good order row. */
  ghost predicate Moving(t: Session) {
    && (t.op.ChangeStatus? || t.op.CustomerCancel?)
    && OrderIdOf(t.op) != NIL
    && (if t.op.ChangeStatus? then t.op.restaurant != NIL else t.op.user != NIL)
    && t.order.Some? && ItemsOk(t.order.value.items)
  }

  ghost predicate OrderRowIs(t: Session, orders: map<Id, Order>, order: Order)
    requires t.op.IsOrderOp()
  {
    OrderIdOf(t.op) in orders && orders[OrderIdOf(t.op)] == order
  }

  /** The first `line` receipt lines are returned in place, with before-images, and nothing else. */
  ghost predicate RefundedSoFar(t: Session, line: nat, dishes: map<Id, Dish>)
    requires t.order.Some?
  {
    var items := t.order.value.items;
    && line <= |items|
    && (forall j :: 0 <= j < line ==>
          && items[j].dish in dishes && items[j].dish in t.before
          && dishes[items[j].dish] ==
             t.before[items[j].dish].(stock := t.before[items[j].dish].stock + items[j].qty)
          && t.before[items[j].dish].stock + items[j].qty <= INT4_MAX)
    && (forall d :: d in t.before <==> d in RefundedDishes(items, line))
  }

  ghost predicate RefundDone(t: Session, dishes: map<Id, Dish>)
    requires Moving(t)
  {
    if TargetOf(t.op) == Cancelled then RefundedSoFar(t, |t.order.value.items|, dishes)
    else t.before == map[]
  }

  ghost predicate OwnDish(db: Db, item: Id, restaurant: Id) {
    item in db.dishes ==> db.dishes[item].restaurant == restaurant
  }

  ghost predicate OwnCategory(db: Db, category: Id, restaurant: Id) {
    category in db.categories ==> db.categories[category].restaurant == restaurant
  }

  /** What a menu call's first, unlocked check still guarantees at its write. */
  ghost predicate Vetted(t: Session, db: Db) {
    && Observed(t.op) <= t.known
    && match t.op
       case AddCategory(restaurant, _, _) => restaurant != NIL
       case RenameCategory(restaurant, category, _) =>
         restaurant != NIL && category != NIL && OwnCategory(db, category, restaurant)
       case DropCategory(restaurant, category) =>
         restaurant != NIL && category != NIL && OwnCategory(db, category, restaurant)
       case AddItem(_, dish) => dish.restaurant != NIL && dish.category != NIL && DishInRange(dish)
       case EditItem(restaurant, item, patch) =>
         PatchInRange(patch) && restaurant != NIL && item != NIL && OwnDish(db, item, restaurant)
       case DropItem(restaurant, item) => restaurant != NIL && item != NIL && OwnDish(db, item, restaurant)
       case _ => false
  }

  ghost predicate BuyerOk(t: Session, db: Db)
    requires t.op.Checkout?
  {
    match t.pc
    case Start => Clean(t) && t.rows == []
    case Scanning => Clean(t) && t.rows == [] && Buying(t)
    case Locking(todo) => Clean(t) && Buying(t) && LockedSoFar(t, todo, db.dishes)
    case Selling(line, total) =>
      && Buying(t) && t.orderUndo == Untouched && SoldSoFar(t, line, db.dishes)
      && total == Wrap64(ExactTotal(Receipt(t.rows, WantOf(t))[..line]))
    case Closing =>
      && Buying(t) && t.orderUndo == Inserted && SoldSoFar(t, |t.rows|, db.dishes)
      && var items := Receipt(t.rows, WantOf(t));
         var total := Wrap64(ExactTotal(items));
         total >= 0 && OrderRowIs(t, db.orders, NewOrder(t.op.input, items, total))
    case Notifying => Clean(t)
    case Finished => Clean(t)
    case Rejected(_) => Clean(t)
    case _ => false
  }

  ghost predicate MoverOk(t: Session, db: Db)
    requires t.op.ChangeStatus? || t.op.CustomerCancel?
  {
    match t.pc
    case Start => Clean(t)
    case Judging => Clean(t) && Moving(t) && OrderRowIs(t, db.orders, t.order.value)
    case Refunding(line) =>
      && t.orderUndo == Untouched && Moving(t) && OrderRowIs(t, db.orders, t.order.value)
      && VerdictOn(t.op, t.order.value).None? && TargetOf(t.op) == Cancelled
      && RefundedSoFar(t, line, db.dishes)
    case Stamping =>
      && t.orderUndo == Untouched && Moving(t) && OrderRowIs(t, db.orders, t.order.value)
      && VerdictOn(t.op, t.order.value).None? && RefundDone(t, db.dishes)
    case Closing =>
      && Moving(t) && t.orderUndo == Replaced(t.order.value)
      && OrderRowIs(t, db.orders, Stamp(t.order.value, TargetOf(t.op), ActorOf(t.op)))
      && VerdictOn(t.op, t.order.value).None? && RefundDone(t, db.dishes)
    case Notifying => Clean(t)
    case Finished => Clean(t)
    case Rejected(_) => Clean(t)
    case _ => false
  }

  ghost predicate PartnerOk(t: Session, db: Db)
    requires !t.op.IsOrderOp()
  {
    && Clean(t)
    && match t.pc
       case Start => true
       case Vetting => t.op.EditItem? && Vetted(t, db)
       case Writing => Vetted(t, db)
       case Checking => Vetted(t, db) && ChecksLater(db, t.op)
       case Finished => true
       case Rejected(_) => true
       case _ => false
  }

  ghost predicate Local(t: Session, db: Db) {
    if t.op.Checkout? then BuyerOk(t, db)
    else if t.op.IsOrderOp() then MoverOk(t, db)
    else PartnerOk(t, db)
  }

  // ---------- new identifiers ----------

  /** The identifier a session may still insert. */
  function Pending(t: Session): set<Id> {
    match t.op
    case Checkout(_, orderId, _) =>
      if t.pc.Start? || t.pc.Scanning? || t.pc.Locking? || t.pc.Selling? then {orderId} else {}
    case AddCategory(_, category, _) => if t.pc.Start? || t.pc.Writing? then {category} else {}
    case AddItem(item, _) => if t.pc.Start? || t.pc.Writing? then {item} else {}
    case _ => {}
  }

  ghost predicate Unused(db: Db, x: Id) {
    x !in db.categories && x !in db.dishes && x !in db.orders
  }

  /** Pending identifiers are in no table, unseen by every session, and each belongs to one session. */
  ghost predicate FreshOk(s: State) {
    && (forall i, x :: 0 <= i < |s.sessions| && x in Pending(s.sessions[i]) ==> Unused(s.db, x))
    && (forall i, j, x :: 0 <= i < |s.sessions| && 0 <= j < |s.sessions| && x in Pending(s.sessions[i]) ==>
          x !in s.sessions[j].known)
    && (forall i, j :: 0 <= i < j < |s.sessions| ==> Pending(s.sessions[i]) !! Pending(s.sessions[j]))
  }

  // ---------- the invariant ----------

  ghost predicate AllLocal(s: State) {
    forall i :: 0 <= i < |s.sessions| ==> Local(s.sessions[i], s.db)
  }

  ghost predicate Inv(s: State) {
    LocksOk(s) && AllLocal(s) && FreshOk(s) && WellFormed(Visible(s))
  }

  // ---------- framing ----------

  ghost predicate RowKept(db: Db, after: Db, r: Row) {
    match r
    case DishRow(d) => d in db.dishes && d in after.dishes && after.dishes[d] == db.dishes[d]
    case OrderRow(o) => o in db.orders && o in after.orders && after.orders[o] == db.orders[o]
    case CategoryRow(c) => c in db.categories && c in after.categories && after.categories[c] == db.categories[c]
  }

  /** No known menu id has come back from the dead or changed hands. */
  ghost predicate OwnersKept(known: set<Id>, db: Db, after: Db) {
    && (forall d | d in known && d in after.dishes ::
          d in db.dishes && after.dishes[d].restaurant == db.dishes[d].restaurant)
    && (forall c | c in known && c in after.categories ::
          c in db.categories && after.categories[c].restaurant == db.categories[c].restaurant)
  }

  /** A session's assertions only speak of the rows it holds and the ids it has observed. */
  lemma LocalFrame(t: Session, db: Db, after: Db)
    requires Local(t, db)
    requires forall r | r in Footprint(t) :: RowKept(db, after, r)
    requires OwnersKept(t.known, db, after)
    ensures Local(t, after)
  {
    if t.op.Checkout? {
      BuyerFrame(t, db, after);
    } else if t.op.IsOrderOp() {
      MoverFrame(t, db, after);
    } else {
      PartnerFrame(t, db, after);
    }
  }

  lemma PartnerFrame(t: Session, db: Db, after: Db)
    requires !t.op.IsOrderOp() && PartnerOk(t, db)
    requires forall r | r in Footprint(t) :: RowKept(db, after, r)
    requires OwnersKept(t.known, db, after)
    ensures PartnerOk(t, after)
  {
    if t.pc.Checking? {
      assert RowKept(db, after, Target(t.op).value);
    }
  }

  /** The rows a checkout has locked are as they were. */
  ghost predicate RowsKept(rows: seq<Fetched>, dishes: map<Id, Dish>, after: map<Id, Dish>) {
    forall j :: 0 <= j < |rows| && rows[j].id in dishes ==>
      rows[j].id in after && after[rows[j].id] == dishes[rows[j].id]
  }

  lemma LockedFrame(t: Session, todo: seq<Id>, db: Db, after: Db)
    requires t.op.Checkout? && LockedSoFar(t, todo, db.dishes)
    requires RowsKept(t.rows, db.dishes, after.dishes) && OwnersKept(t.known, db, after)
    ensures LockedSoFar(t, todo, after.dishes)
  {
  }

  lemma SoldFrame(t: Session, line: nat, dishes: map<Id, Dish>, after: map<Id, Dish>)
    requires t.op.Checkout? && SoldSoFar(t, line, dishes)
    requires RowsKept(t.rows, dishes, after)
    ensures SoldSoFar(t, line, after)
  {
  }

  lemma BuyerRowsKept(t: Session, db: Db, after: Db)
    requires t.op.Checkout? && (t.pc.Locking? || t.pc.Selling? || t.pc.Closing?)
    requires forall r | r in Footprint(t) :: RowKept(db, after, r)
    ensures RowsKept(t.rows, db.dishes, after.dishes)
  {
    forall j | 0 <= j < |t.rows| && t.rows[j].id in db.dishes
      ensures t.rows[j].id in after.dishes && after.dishes[t.rows[j].id] == db.dishes[t.rows[j].id]
    {
      assert t.rows[j].id == Ids(t.rows)[j];
      assert RowKept(db, after, DishRow(t.rows[j].id));
    }
  }

  lemma SellingFrame(t: Session, db: Db, after: Db)
    requires t.op.Checkout? && (t.pc.Selling? || t.pc.Closing?) && BuyerOk(t, db)
    requires RowsKept(t.rows, db.dishes, after.dishes)
    requires t.pc.Closing? ==> RowKept(db, after, OrderRow(t.op.orderId))
    ensures BuyerOk(t, after)
  {
    SoldFrame(t, if t.pc.Selling? then t.pc.line else |t.rows|, db.dishes, after.dishes);
  }

  lemma BuyerFrame(t: Session, db: Db, after: Db)
    requires t.op.Checkout? && BuyerOk(t, db)
    requires forall r | r in Footprint(t) :: RowKept(db, after, r)
    requires OwnersKept(t.known, db, after)
    ensures BuyerOk(t, after)
  {
    if t.pc.Locking? {
      BuyerRowsKept(t, db, after);
      hide Footprint, RowKept, RowsKept, OwnersKept, LockedSoFar, Buying;
      LockedFrame(t, t.pc.todo, db, after);
    } else if t.pc.Selling? || t.pc.Closing? {
      BuyerRowsKept(t, db, after);
      assert t.pc.Closing? ==> OrderRow(t.op.orderId) in Footprint(t);
      hide Footprint, RowKept, RowsKept, OwnersKept, BuyerOk;
      SellingFrame(t, db, after);
    }
  }

  lemma MoverFrame(t: Session, db: Db, after: Db)
    requires t.op.ChangeStatus? || t.op.CustomerCancel?
    requires MoverOk(t, db)
    requires forall r | r in Footprint(t) :: RowKept(db, after, r)
    ensures MoverOk(t, after)
  {
    if t.pc.Judging? || t.pc.Refunding? || t.pc.Stamping? || t.pc.Closing? {
      assert RowKept(db, after, OrderRow(OrderIdOf(t.op)));
      var items := t.order.value.items;
      if !t.pc.Judging? && TargetOf(t.op) == Cancelled {
        var line := if t.pc.Refunding? then t.pc.line else |items|;
        assert items[..|items|] == items;
        forall j | 0 <= j < line
          ensures after.dishes.Keys >= {items[j].dish} && after.dishes[items[j].dish] == db.dishes[items[j].dish]
        {
          assert items[j].dish == RefundedDishes(items, line)[j];
          assert DishRow(items[j].dish) in Footprint(t);
          assert RowKept(db, after, DishRow(items[j].dish));
        }
      }
    }
  }

  // ---------- one step, seen from outside the session that makes it ----------

  /** Session i trades its old locks for its new footprint, taking only free rows. */
  ghost predicate LockStep(s: State, i: nat, s': State)
    requires i < |s.sessions| == |s'.sessions|
  {
    var rows := Footprint(s'.sessions[i]);
    && (forall r :: r in s'.locks <==> r in rows || (r in s.locks && s.locks[r] != i))
    && (forall r | r in rows :: s'.locks[r] == i && (r in s.locks ==> s.locks[r] == i))
    && (forall r | r in s'.locks && r !in rows :: s'.locks[r] == s.locks[r])
  }

  /** The tables change only in rows nobody else holds, and grow only by i's pending identifier. */
  ghost predicate TableStep(s: State, i: nat, s': State)
    requires i < |s.sessions| == |s'.sessions|
  {
    var pending := Pending(s.sessions[i]);
    && (forall r | r in s.locks && s.locks[r] != i :: RowKept(s.db, s'.db, r))
    && (forall d | d in s'.db.dishes && d !in pending ::
          d in s.db.dishes && s'.db.dishes[d].restaurant == s.db.dishes[d].restaurant)
    && (forall c | c in s'.db.categories && c !in pending ::
          c in s.db.categories && s'.db.categories[c].restaurant == s.db.categories[c].restaurant)
    && (forall o | o in s'.db.orders && o !in pending :: o in s.db.orders)
    && (forall x | x in Pending(s'.sessions[i]) :: x in pending && Unused(s'.db, x))
  }

  /** Session i's own assertion; quantified so that callers carry it unopened. */
  ghost predicate LocalAt(s: State, i: nat) {
    forall k | 0 <= k < |s.sessions| && k == i :: Local(s.sessions[k], s.db)
  }

  ghost predicate OwnStep(s: State, i: nat, s': State)
    requires i < |s.sessions|
  {
    && |s'.sessions| == |s.sessions|
    && s'.sessions == s.sessions[i := s'.sessions[i]]
    && s'.sessions[i].op == s.sessions[i].op
    && s'.sessions[i].known <= s.sessions[i].known + s.db.dishes.Keys + s.db.categories.Keys
    && LocalAt(s', i)
  }

  ghost predicate GoodStep(s: State, i: nat, s': State)
    requires i < |s.sessions|
  {
    OwnStep(s, i, s') && LockStep(s, i, s') && TableStep(s, i, s')
  }

  lemma OthersRows(s: State, i: nat, s': State, j: nat)
    requires LocksOk(s) && i < |s.sessions| == |s'.sessions| && TableStep(s, i, s')
    requires j < |s.sessions| && j != i
    ensures forall r | r in Footprint(s.sessions[j]) :: RowKept(s.db, s'.db, r)
  {
    forall r | r in Footprint(s.sessions[j]) ensures RowKept(s.db, s'.db, r) {
      assert r in s.locks && s.locks[r] == j;
    }
  }

  lemma OthersOwners(s: State, i: nat, s': State, j: nat)
    requires FreshOk(s) && i < |s.sessions| == |s'.sessions| && TableStep(s, i, s') && j < |s.sessions|
    ensures OwnersKept(s.sessions[j].known, s.db, s'.db)
  {
    assert forall x :: x in Pending(s.sessions[i]) ==> x !in s.sessions[j].known;
  }

  lemma OthersKeep(s: State, i: nat, s': State, j: nat)
    requires LocksOk(s) && FreshOk(s) && i < |s.sessions| && OwnStep(s, i, s') && TableStep(s, i, s')
    requires j < |s.sessions| && j != i && LocalAt(s, j)
    ensures Local(s'.sessions[j], s'.db)
  {
    OthersRows(s, i, s', j);
    OthersOwners(s, i, s', j);
    hide LocksOk, FreshOk, TableStep, RowKept, OwnersKept;
    assert s'.sessions[j] == s.sessions[j];
    LocalFrame(s.sessions[j], s.db, s'.db);
  }

  lemma LocksKeep(s: State, i: nat, s': State)
    requires LocksOk(s) && i < |s.sessions| && OwnStep(s, i, s') && LockStep(s, i, s')
    ensures LocksOk(s')
  {
    forall j, r | 0 <= j < |s'.sessions| && r in Footprint(s'.sessions[j])
      ensures r in s'.locks && s'.locks[r] == j
    {
      if j != i {
        assert s'.sessions[j] == s.sessions[j];
        assert r in s.locks && s.locks[r] == j;
      }
    }
    forall r | r in s'.locks
      ensures s'.locks[r] < |s'.sessions| && r in Footprint(s'.sessions[s'.locks[r]])
    {
      if r !in Footprint(s'.sessions[i]) {
        assert s'.locks[r] == s.locks[r];
      }
    }
  }

  lemma FreshKeeps(s: State, i: nat, s': State)
    requires FreshOk(s) && i < |s.sessions| && OwnStep(s, i, s') && TableStep(s, i, s')
    ensures FreshOk(s')
  {
    forall j, x | 0 <= j < |s'.sessions| && x in Pending(s'.sessions[j])
      ensures Unused(s'.db, x) && x in Pending(s.sessions[j])
    {
      assert x in Pending(s.sessions[j]);
      assert Unused(s.db, x);
    }
    forall j, k, x | 0 <= j < |s'.sessions| && 0 <= k < |s'.sessions| && x in Pending(s'.sessions[j])
      ensures x !in s'.sessions[k].known
    {
      assert x !in s.sessions[k].known;
      assert Unused(s.db, x);
    }
  }

  /** A good step keeps the invariant, provided the visible tables stay well formed. */
  lemma InvKeeps(s: State, i: nat, s': State)
    requires Inv(s) && i < |s.sessions| && GoodStep(s, i, s') && WellFormed(Visible(s'))
    ensures Inv(s')
  {
    LocksKeep(s, i, s');
    FreshKeeps(s, i, s');
    forall j | 0 <= j < |s'.sessions| ensures Local(s'.sessions[j], s'.db) {
      if j != i {
        OthersKeep(s, i, s', j);
      }
    }
  }
}
