/** What the other sessions can see does not move while a transaction works, and rolling back puts
    every row it changed back to what they saw all along. */
module EngineVisibility {
  import opened Domain
  import opened Spec
  import opened Tables
  import opened Engine
  import opened EngineInvariant

  /** Undo images only exist for rows the session holds. */
  ghost predicate Backed(t: Session) {
    && (forall d | d in t.before :: DishRow(d) in Footprint(t))
    && (t.orderUndo != Untouched ==> t.op.IsOrderOp() && OrderRow(OrderIdOf(t.op)) in Footprint(t))
  }

  /** A changed dish row differs from its before-image in stock alone. */
  ghost predicate OnlyStock(t: Session, db: Db) {
    && (forall d | d in t.before :: d in db.dishes && t.before[d] == db.dishes[d].(stock := t.before[d].stock))
    && (t.orderUndo != Untouched ==> t.op.IsOrderOp() && OrderIdOf(t.op) in db.orders)
    && (t.orderUndo.Replaced? ==> db.orders[OrderIdOf(t.op)].items == t.orderUndo.image.items)
  }

  /** A sold row is held, and its image differs from it in stock alone. */
  lemma SoldImage(t: Session, line: nat, dishes: map<Id, Dish>, d: Id)
    requires t.op.Checkout? && SoldSoFar(t, line, dishes) && d in t.before
    ensures d in Ids(t.rows) && d in dishes && t.before[d] == dishes[d].(stock := t.before[d].stock)
  {
    AscendingIs(WantOf(t).Keys);
    ImagesAre(t.rows, line);
    assert d in Ids(t.rows[..line]);
    var j :| 0 <= j < line && Ids(t.rows[..line])[j] == d;
    assert Ids(t.rows)[j] == d == t.rows[j].id;
  }

  lemma BuyerBacked(t: Session, db: Db)
    requires t.op.Checkout? && BuyerOk(t, db)
    ensures Backed(t) && OnlyStock(t, db)
  {
    if t.pc.Selling? || t.pc.Closing? {
      var line := if t.pc.Selling? then t.pc.line else |t.rows|;
      forall d | d in t.before
        ensures d in Ids(t.rows)
        ensures d in db.dishes && t.before[d] == db.dishes[d].(stock := t.before[d].stock)
      {
        SoldImage(t, line, db.dishes, d);
      }
      hide SoldSoFar, Buying, Receipt, ExactTotal, Wrap64;
    }
  }

  lemma MoverBacked(t: Session, db: Db)
    requires (t.op.ChangeStatus? || t.op.CustomerCancel?) && MoverOk(t, db)
    ensures Backed(t) && OnlyStock(t, db)
  {
    if t.before != map[] {
      var items := t.order.value.items;
      var line := if t.pc.Refunding? then t.pc.line else |items|;
      assert items[..|items|] == items;
      forall d | d in t.before
        ensures DishRow(d) in Footprint(t)
        ensures d in db.dishes && t.before[d] == db.dishes[d].(stock := t.before[d].stock)
      {
        assert d in RefundedDishes(items, line);
        var j :| 0 <= j < line && RefundedDishes(items, line)[j] == d;
        assert items[j].dish == d;
      }
    }
  }

  lemma LocalBacked(s: State, i: nat)
    requires i < |s.sessions| && LocalAt(s, i)
    ensures Backed(s.sessions[i]) && OnlyStock(s.sessions[i], s.db)
  {
    var t, db := s.sessions[i], s.db;
    if t.op.Checkout? {
      BuyerBacked(t, db);
    } else if t.op.IsOrderOp() {
      MoverBacked(t, db);
    }
  }

  /** The dish row others see, as far as session t is concerned. */
  function SeenDish(t: Session, db: Db, d: Id): Dish
    requires d in db.dishes
  {
    if d in t.before then t.before[d] else db.dishes[d]
  }

  /** The order row others see, as far as session t is concerned. */
  function SeenOrder(t: Session, db: Db, o: Id): Option<Order> {
    if o !in db.orders then None
    else if t.op.IsOrderOp() && OrderIdOf(t.op) == o && t.orderUndo == Inserted then None
    else if t.op.IsOrderOp() && OrderIdOf(t.op) == o && t.orderUndo.Replaced? then Some(t.orderUndo.image)
    else Some(db.orders[o])
  }

  predicate NotOthers(s: State, i: nat, r: Row) {
    r in s.locks ==> s.locks[r] == i
  }

  /** Session i shows the others the same rows before and after its step. */
  ghost predicate SameSight(s: State, i: nat, s': State)
    requires i < |s.sessions| == |s'.sessions|
  {
    && s'.db.categories == s.db.categories
    && s'.db.dishes.Keys == s.db.dishes.Keys
    && (forall d | d in s.db.dishes && NotOthers(s, i, DishRow(d)) ::
          SeenDish(s'.sessions[i], s'.db, d) == SeenDish(s.sessions[i], s.db, d))
    && (forall o | NotOthers(s, i, OrderRow(o)) ::
          SeenOrder(s'.sessions[i], s'.db, o) == SeenOrder(s.sessions[i], s.db, o))
  }

  /** A row somebody else holds shows the same image, because neither the row nor the holder moved. */
  lemma HeldDishSight(s: State, i: nat, s': State, d: Id)
    requires LocksOk(s) && i < |s.sessions| && GoodStep(s, i, s') && d in s.db.dishes
    requires DishRow(d) in s.locks && s.locks[DishRow(d)] != i
    ensures d in s'.db.dishes && DishImage(s', d) == DishImage(s, d)
  {
    var r := DishRow(d);
    assert RowKept(s.db, s'.db, r);
    assert r in s'.locks && s'.locks[r] == s.locks[r];
    hide Local, LocalAt, Footprint, Pending, LocksOk, LockStep, TableStep;
  }

  /** A row nobody else holds shows what its one possible writer says. */
  lemma OwnDishImage(s: State, i: nat, d: Id)
    requires LocksOk(s) && i < |s.sessions| && Backed(s.sessions[i]) && d in s.db.dishes
    requires NotOthers(s, i, DishRow(d))
    ensures DishImage(s, d) == SeenDish(s.sessions[i], s.db, d)
  {
    hide Footprint;
  }

  lemma DishSight(s: State, i: nat, s': State, d: Id)
    requires LocksOk(s) && i < |s.sessions| && GoodStep(s, i, s') && LocksOk(s')
    requires Backed(s.sessions[i]) && Backed(s'.sessions[i])
    requires SameSight(s, i, s') && d in s.db.dishes
    ensures DishImage(s', d) == DishImage(s, d)
  {
    if NotOthers(s, i, DishRow(d)) {
      assert NotOthers(s', i, DishRow(d)) && d in s'.db.dishes;
      hide GoodStep, LocksOk, Backed, DishImage;
      OwnDishImage(s, i, d);
      OwnDishImage(s', i, d);
    } else {
      HeldDishSight(s, i, s', d);
    }
  }

  function SeenByAll(s: State, o: Id): Option<Order> {
    if o in s.db.orders && !Invisible(s, o) then Some(OrderImage(s, o)) else None
  }

  lemma FootprintOrder(t: Session, o: Id)
    requires OrderRow(o) in Footprint(t)
    ensures t.op.IsOrderOp() && OrderIdOf(t.op) == o
  {
  }

  lemma OrderSight(s: State, i: nat, s': State, o: Id)
    requires LocksOk(s) && i < |s.sessions| && GoodStep(s, i, s') && LocksOk(s')
    requires Backed(s.sessions[i]) && Backed(s'.sessions[i])
    requires SameSight(s, i, s')
    ensures SeenByAll(s', o) == SeenByAll(s, o)
  {
    hide Local, Pending, Footprint;
    var r := OrderRow(o);
    if r in s.locks {
      FootprintOrder(s.sessions[s.locks[r]], o);
    }
    if r in s'.locks {
      FootprintOrder(s'.sessions[s'.locks[r]], o);
    }
    if r in s.locks && s.locks[r] != i {
      assert RowKept(s.db, s'.db, r);
    } else {
      assert SeenByAll(s, o) == SeenOrder(s.sessions[i], s.db, o);
      assert SeenByAll(s', o) == SeenOrder(s'.sessions[i], s'.db, o);
    }
  }

  lemma OrdersVisible(s: State, s': State)
    requires forall o :: SeenByAll(s', o) == SeenByAll(s, o)
    ensures Visible(s').orders == Visible(s).orders
  {
    var a, b := Visible(s).orders, Visible(s').orders;
    forall o ensures (o in a <==> o in b) && (o in a ==> a[o] == b[o]) {
      assert SeenByAll(s, o) == if o in a then Some(a[o]) else None;
      assert SeenByAll(s', o) == if o in b then Some(b[o]) else None;
    }
  }

  lemma DishesVisible(s: State, s': State)
    requires s'.db.dishes.Keys == s.db.dishes.Keys
    requires forall d | d in s.db.dishes :: DishImage(s', d) == DishImage(s, d)
    ensures Visible(s').dishes == Visible(s).dishes
  {
  }

  /** A step that shows the others the same rows leaves the visible tables unchanged. */
  lemma SightKeepsVisible(s: State, i: nat, s': State)
    requires LocksOk(s) && AllLocal(s) && i < |s.sessions| && GoodStep(s, i, s') && SameSight(s, i, s')
    ensures Visible(s') == Visible(s)
  {
    LocksKeep(s, i, s');
    LocalBacked(s, i);
    LocalBacked(s', i);
    forall d | d in s.db.dishes ensures DishImage(s', d) == DishImage(s, d) {
      DishSight(s, i, s', d);
    }
    forall o ensures SeenByAll(s', o) == SeenByAll(s, o) {
      OrderSight(s, i, s', o);
    }
    hide SeenByAll, DishImage, LocksOk, Local, Footprint, GoodStep;
    OrdersVisible(s, s');
    DishesVisible(s, s');
  }

  /** The step neither commits nor shows the others anything. */
  ghost predicate Unseen(s: State, i: nat, s': State)
    requires i < |s.sessions|
  {
    GoodStep(s, i, s') && s'.log == s.log && Visible(s') == Visible(s)
  }

  /** A held row is in its table. */
  lemma HeldExists(s: State, j: nat, r: Row)
    requires AllLocal(s) && j < |s.sessions| && r in Footprint(s.sessions[j])
    ensures match r
            case DishRow(d) => d in s.db.dishes
            case OrderRow(o) => o in s.db.orders
            case CategoryRow(c) => c in s.db.categories
  {
    var t := s.sessions[j];
    assert Local(t, s.db);
    match r
    case CategoryRow(_) =>
    case OrderRow(o) => FootprintOrder(t, o);
    case DishRow(d) =>
      if !t.op.IsOrderOp() {
        assert t.pc.Checking?;
      } else if t.op.Checkout? {
        assert d in Ids(t.rows);
        var k :| 0 <= k < |t.rows| && Ids(t.rows)[k] == d;
        assert t.rows[k].id == d;
      } else {
        var items := t.order.value.items;
        var line := if t.pc.Refunding? then t.pc.line else |items|;
        assert items[..|items|] == items;
        assert d in RefundedDishes(items, line);
        var k :| 0 <= k < line && RefundedDishes(items, line)[k] == d;
        assert items[k].dish == d;
      }
  }

  lemma HeldRows(s: State)
    requires LocksOk(s) && AllLocal(s)
    ensures forall r | r in s.locks :: RowKept(s.db, s.db, r)
  {
    forall r | r in s.locks ensures RowKept(s.db, s.db, r) {
      HeldExists(s, s.locks[r], r);
    }
  }

  // ---------- steps of control alone ----------

  /** A step that only moves the session's own control state. */
  lemma ControlStep(s: State, i: nat, t': Session)
    requires Inv(s) && i < |s.sessions|
    requires var t := s.sessions[i];
             && t'.op == t.op && t'.before == t.before && t'.orderUndo == t.orderUndo
             && t'.known <= t.known + s.db.dishes.Keys + s.db.categories.Keys
             && Footprint(t') == Footprint(t) && Pending(t') <= Pending(t)
    requires LocalAt(Put(s, i, t'), i)
    ensures Unseen(s, i, Put(s, i, t'))
  {
    hide Local, Footprint, Pending, WellFormed, Visible;
    var s' := Put(s, i, t');
    assert s'.sessions[i] == t';
    HeldRows(s);
    assert forall r | r in Footprint(t') :: r in s.locks && s.locks[r] == i;
    assert forall x | x in Pending(t') :: Unused(s.db, x);
    SightKeepsVisible(s, i, s');
  }

  // ---------- rollback ----------

  /** The undo log touches only rows the session holds. */
  lemma UndoneRow(t: Session, db: Db, r: Row)
    requires Backed(t) && OnlyStock(t, db) && r !in Footprint(t) && RowKept(db, db, r)
    ensures RowKept(db, Undone(db, t), r)
  {
  }

  lemma UndoneKeys(t: Session, db: Db)
    requires OnlyStock(t, db)
    ensures var after := Undone(db, t);
            && after.categories == db.categories && after.dishes.Keys == db.dishes.Keys
            && (forall d | d in db.dishes :: after.dishes[d].restaurant == db.dishes[d].restaurant)
            && after.orders.Keys <= db.orders.Keys
  {
  }

  lemma RejectTables(s: State, i: nat, error: Error)
    requires Inv(s) && i < |s.sessions|
    ensures TableStep(s, i, Reject(s, i, error))
  {
    var t := s.sessions[i];
    var s' := Reject(s, i, error);
    LocalBacked(s, i);
    HeldRows(s);
    UndoneKeys(t, s.db);
    forall r | r in s.locks && s.locks[r] != i ensures RowKept(s.db, s'.db, r) {
      assert r !in Footprint(t);
      UndoneRow(t, s.db, r);
    }
    assert Pending(s'.sessions[i]) == {};
    hide Local, WellFormed, FreshOk, Visible, Footprint, Undone, OnlyStock, Backed, RowKept, LocksOk, Pending;
  }

  lemma RejectLocks(s: State, i: nat, error: Error)
    requires i < |s.sessions|
    ensures LockStep(s, i, Reject(s, i, error))
  {
    assert Footprint(Reject(s, i, error).sessions[i]) == {};
  }

  lemma RejectOwn(s: State, i: nat, error: Error)
    requires i < |s.sessions|
    ensures OwnStep(s, i, Reject(s, i, error))
  {
  }

  lemma RejectSight(s: State, i: nat, error: Error)
    requires i < |s.sessions| && OnlyStock(s.sessions[i], s.db)
    ensures SameSight(s, i, Reject(s, i, error))
  {
  }

  /** Rolling back, at any program counter, restores what the others saw and frees every lock. */
  lemma RejectStep(s: State, i: nat, error: Error)
    requires Inv(s) && i < |s.sessions|
    ensures Unseen(s, i, Reject(s, i, error))
  {
    RejectOwn(s, i, error);
    RejectLocks(s, i, error);
    RejectTables(s, i, error);
    LocalBacked(s, i);
    RejectSight(s, i, error);
    assert Reject(s, i, error).log == s.log;
    hide OwnStep, LockStep, TableStep, SameSight, Reject, Local, WellFormed, FreshOk, LocksOk, Visible;
    SightKeepsVisible(s, i, Reject(s, i, error));
  }

  // ---------- commit ----------

  lemma CommitGood(s: State, i: nat)
    requires LocksOk(s) && AllLocal(s) && i < |s.sessions|
    requires s.sessions[i].op.IsOrderOp()
    ensures GoodStep(s, i, Commit(s, i))
  {
    HeldRows(s);
    var t' := Commit(s, i).sessions[i];
    assert Footprint(t') == {} && Pending(t') == {};
    hide Footprint;
  }

  /** The order table others see once session i has committed. */
  function OrdersAfter(s: State, i: nat): map<Id, Order>
    requires i < |s.sessions|
  {
    var t := s.sessions[i];
    if t.op.IsOrderOp() && t.orderUndo != Untouched && OrderIdOf(t.op) in s.db.orders
    then Visible(s).orders[OrderIdOf(t.op) := s.db.orders[OrderIdOf(t.op)]]
    else Visible(s).orders
  }

  lemma CommitDish(s: State, i: nat, d: Id)
    requires LocksOk(s) && i < |s.sessions| && Backed(s.sessions[i]) && d in s.db.dishes
    ensures DishImage(Commit(s, i), d) == if d in s.sessions[i].before then s.db.dishes[d] else DishImage(s, d)
  {
    hide Footprint;
    var s' := Commit(s, i);
    var r := DishRow(d);
    if r in s.locks && s.locks[r] != i {
      assert r !in Footprint(s.sessions[i]);
      assert s'.locks[r] == s.locks[r];
    }
  }

  lemma CommitOrder(s: State, i: nat, o: Id)
    requires LocksOk(s) && i < |s.sessions| && Backed(s.sessions[i]) && s.sessions[i].op.IsOrderOp()
    requires OnlyStock(s.sessions[i], s.db)
    ensures var t := s.sessions[i];
            SeenByAll(Commit(s, i), o) ==
            if t.orderUndo != Untouched && OrderIdOf(t.op) == o then Some(s.db.orders[o]) else SeenByAll(s, o)
  {
    var s' := Commit(s, i);
    var r := OrderRow(o);
    var t := s.sessions[i];
    if r in s.locks {
      FootprintOrder(s.sessions[s.locks[r]], o);
    }
    if t.orderUndo != Untouched && OrderIdOf(t.op) == o {
      assert s.locks[r] == i;
    }
    hide Footprint;
    if r in s.locks && s.locks[r] != i {
      assert s'.locks[r] == s.locks[r] && s'.sessions[s.locks[r]] == s.sessions[s.locks[r]];
    } else {
      assert r !in s'.locks;
    }
  }

  /** The dish table others see once session i has committed. */
  function DishesAfter(s: State, i: nat): map<Id, Dish>
    requires i < |s.sessions|
  {
    map d | d in s.db.dishes :: if d in s.sessions[i].before then s.db.dishes[d] else DishImage(s, d)
  }

  lemma CommitDishes(s: State, i: nat)
    requires LocksOk(s) && AllLocal(s) && i < |s.sessions|
    ensures Visible(Commit(s, i)).dishes == DishesAfter(s, i)
  {
    LocalBacked(s, i);
    forall d | d in s.db.dishes
      ensures DishImage(Commit(s, i), d) == if d in s.sessions[i].before then s.db.dishes[d] else DishImage(s, d)
    {
      CommitDish(s, i, d);
    }
    hide Local, Footprint, LocksOk, Backed, DishImage;
  }

  /** A commit publishes exactly the rows in the session's undo log and the order row it wrote. */
  lemma CommitVisible(s: State, i: nat)
    requires LocksOk(s) && AllLocal(s) && i < |s.sessions| && s.sessions[i].op.IsOrderOp()
    ensures Visible(Commit(s, i)) == Db(s.db.categories, DishesAfter(s, i), OrdersAfter(s, i))
  {
    CommitDishes(s, i);
    CommitOrders(s, i);
    assert Visible(Commit(s, i)).categories == s.db.categories;
    hide Visible, Commit, DishesAfter, OrdersAfter, LocksOk, AllLocal;
  }

  lemma SeenIsVisible(s: State, o: Id)
    ensures SeenByAll(s, o) == if o in Visible(s).orders then Some(Visible(s).orders[o]) else None
  {
  }

  lemma CommitOrderVisible(s: State, i: nat, o: Id)
    requires LocksOk(s) && AllLocal(s) && i < |s.sessions| && s.sessions[i].op.IsOrderOp()
    ensures var a, b := Visible(Commit(s, i)).orders, OrdersAfter(s, i);
            (o in a <==> o in b) && (o in a ==> a[o] == b[o])
  {
    LocalBacked(s, i);
    CommitOrder(s, i, o);
    SeenIsVisible(s, o);
    SeenIsVisible(Commit(s, i), o);
    var t := s.sessions[i];
    assert t.orderUndo != Untouched ==> OrderIdOf(t.op) in s.db.orders;
    hide LocksOk, AllLocal, Backed, OnlyStock, SeenByAll, Visible, Commit;
  }

  lemma CommitOrders(s: State, i: nat)
    requires LocksOk(s) && AllLocal(s) && i < |s.sessions| && s.sessions[i].op.IsOrderOp()
    ensures Visible(Commit(s, i)).orders == OrdersAfter(s, i)
  {
    hide *;
    var a, b := Visible(Commit(s, i)).orders, OrdersAfter(s, i);
    forall o ensures (o in a <==> o in b) && (o in a ==> a[o] == b[o]) {
      CommitOrderVisible(s, i, o);
    }
  }
}
