/** Restaurants cannot reach each other: whatever is called on behalf of one restaurant, refunds
    included, the categories, dishes, stock and orders of all the others stay as they were. */
module Tenancy {
  import opened Domain
  import opened Spec
  import opened Tables
  import opened Ledger
  import opened CheckoutVerdict
  import opened MoveVerdict

  /** The call is made on behalf of restaurant r, or is a checkout addressed to it. */
  predicate MadeFor(op: Op, r: Id) {
    match op
    case Checkout(input, _, _) => input.restaurant == r
    case ChangeStatus(restaurant, _, _, _) => restaurant == r
    case CustomerCancel(_, _, _) => false
    case AddCategory(restaurant, _, _) => restaurant == r
    case RenameCategory(restaurant, _, _) => restaurant == r
    case DropCategory(restaurant, _) => restaurant == r
    case AddItem(_, dish) => dish.restaurant == r
    case EditItem(restaurant, _, _) => restaurant == r
    case DropItem(restaurant, _) => restaurant == r
  }

  /** Everything that belongs to the other restaurants. */
  function Elsewhere(db: Db, r: Id): Db {
    Db(map c | c in db.categories && db.categories[c].restaurant != r :: db.categories[c],
       map d | d in db.dishes && db.dishes[d].restaurant != r :: db.dishes[d],
       map o | o in db.orders && db.orders[o].restaurant != r :: db.orders[o])
  }

  /** A dish of another restaurant is on none of r's receipts. */
  lemma NotOnReceipt(db: Db, o: Id, d: Id)
    requires WellFormed(db) && o in db.orders
    requires d in db.dishes && db.dishes[d].restaurant != db.orders[o].restaurant
    ensures QtyOf(db.orders[o].items, d) == 0
  {
    assert OrderOk(db.orders[o], db.dishes);
    QtyOfAbsent(db.orders[o].items, d);
  }

  lemma StatusDish(db: Db, op: Op, r: Id, d: Id)
    requires WellFormed(db) && op.ChangeStatus? && op.restaurant == r && Apply(db, op).Ok? && d in db.dishes
    ensures d in Apply(db, op).value.dishes
    ensures Apply(db, op).value.dishes[d].restaurant == db.dishes[d].restaurant
    ensures db.dishes[d].restaurant != r ==> Apply(db, op).value.dishes[d] == db.dishes[d]
  {
    assert db.orders[op.order].restaurant == r;
    MoveEffect(db, op, d);
    if db.dishes[d].restaurant != r {
      NotOnReceipt(db, op.order, d);
    }
    hide Apply, WellFormed, QtyOf;
  }

  /** Tables that differ only in rows of restaurant r look the same from elsewhere. */
  lemma SameElsewhere(db: Db, after: Db, r: Id)
    requires after.categories == db.categories && after.dishes.Keys == db.dishes.Keys
    requires forall d | d in db.dishes ::
               && after.dishes[d].restaurant == db.dishes[d].restaurant
               && (db.dishes[d].restaurant != r ==> after.dishes[d] == db.dishes[d])
    requires forall o | o in db.orders && db.orders[o].restaurant != r ::
               o in after.orders && after.orders[o] == db.orders[o]
    requires forall o | o in after.orders && after.orders[o].restaurant != r ::
               o in db.orders && db.orders[o] == after.orders[o]
    ensures Elsewhere(after, r) == Elsewhere(db, r)
  {
    var a, b := Elsewhere(after, r), Elsewhere(db, r);
    assert a.dishes == b.dishes;
    assert a.orders == b.orders;
  }

  lemma StatusStaysHome(db: Db, op: Op, r: Id)
    requires WellFormed(db) && op.ChangeStatus? && op.restaurant == r && Apply(db, op).Ok?
    ensures Elsewhere(Apply(db, op).value, r) == Elsewhere(db, r)
  {
    var after := Apply(db, op).value;
    assert db.orders[op.order].restaurant == r == after.orders[op.order].restaurant;
    MoveEffect(db, op, 0);
    forall d | d in db.dishes
      ensures after.dishes[d].restaurant == db.dishes[d].restaurant
      ensures db.dishes[d].restaurant != r ==> after.dishes[d] == db.dishes[d]
    {
      StatusDish(db, op, r, d);
    }
    hide *;
    SameElsewhere(db, after, r);
  }

  lemma CheckoutStaysHome(db: Db, op: Op, r: Id)
    requires op.Checkout? && op.input.restaurant == r && Apply(db, op).Ok?
    ensures Elsewhere(Apply(db, op).value, r) == Elsewhere(db, r)
  {
    var after := Apply(db, op).value;
    var want := Wanted(op.input.lines);
    CheckoutEffect(db, op, 0);
    forall d | d in db.dishes
      ensures after.dishes[d].restaurant == db.dishes[d].restaurant
      ensures db.dishes[d].restaurant != r ==> after.dishes[d] == db.dishes[d]
    {
      CheckoutEffect(db, op, d);
      if d in want {
        WantedDishOwner(db, op, d);
      }
    }
    assert after.orders[op.orderId].restaurant == r;
    hide *;
    SameElsewhere(db, after, r);
  }

  lemma WantedDishOwner(db: Db, op: Op, d: Id)
    requires op.Checkout? && Apply(db, op).Ok? && d in Wanted(op.input.lines)
    ensures d in db.dishes && db.dishes[d].restaurant == op.input.restaurant
  {
    var want := Wanted(op.input.lines);
    var rows := FetchWanted(db.dishes, want);
    LinesFaultNone(rows, op.input.restaurant, want);
    assert d in Ids(rows) by { AscendingIs(want.Keys); }
    var j :| 0 <= j < |rows| && Ids(rows)[j] == d;
    assert rows[j].id == d;
    hide Wanted, ExactTotal, Wrap64, LinesFault;
  }

  lemma MenuStaysHome(db: Db, op: Op, r: Id)
    requires !op.IsOrderOp() && MadeFor(op, r) && Apply(db, op).Ok?
    ensures Elsewhere(Apply(db, op).value, r) == Elsewhere(db, r)
  {
    hide NameTaken, CategoryUsed, DishOrdered, DishInRange, PatchInRange;
    var a, b := Elsewhere(Apply(db, op).value, r), Elsewhere(db, r);
    assert a.categories == b.categories;
    assert a.dishes == b.dishes;
    assert a.orders == b.orders;
  }

  /** Tenant isolation over every history of calls made for one restaurant. */
  lemma {:induction false} Isolation(init: Db, ops: seq<Op>, log: seq<nat>, r: Id)
    requires WellFormed(init) && InRange(ops, log) && Replay(init, ops, log).Some?
    requires forall k :: 0 <= k < |log| ==> MadeFor(ops[log[k]], r)
    ensures Elsewhere(Replay(init, ops, log).value, r) == Elsewhere(init, r)
  {
    if log != [] {
      var n := |log| - 1;
      var before := ReplayPrefix(init, ops, log);
      Isolation(init, ops, log[..n], r);
      ReplayKeeps(init, ops, log[..n]);
      var op := ops[log[n]];
      assert MadeFor(op, r);
      if op.Checkout? {
        CheckoutStaysHome(before, op, r);
      } else if op.IsOrderOp() {
        StatusStaysHome(before, op, r);
      } else {
        MenuStaysHome(before, op, r);
      }
      hide Apply, Elsewhere, WellFormed;
    }
  }

  // ---------- customers ----------

  /** The call is one of the two parties' own on order o: its restaurant's or its customer's. */
  predicate MovesAsParty(op: Op, o: Id, order: Order) {
    || (op.ChangeStatus? && op.order == o && op.restaurant == order.restaurant)
    || (op.CustomerCancel? && op.order == o && op.user == order.user)
  }

  lemma OthersCannotMove(db: Db, op: Op, o: Id)
    requires Apply(db, op).Ok? && o in db.orders && !MovesAsParty(op, o, db.orders[o])
    ensures o in Apply(db, op).value.orders && Apply(db, op).value.orders[o] == db.orders[o]
  {
    if op.Checkout? {
      CheckoutEffect(db, op, 0);
    } else if op.ChangeStatus? {
      StatusAccepted(db, op);
      MoveEffect(db, op, 0);
    } else if op.CustomerCancel? {
      CancelAccepted(db, op);
      MoveEffect(db, op, 0);
    } else {
      MenuStock(db, op, 0);
    }
    hide Apply;
  }

  /** Only an order's own restaurant and its own customer ever change it: along every history without such a
      call of theirs it stays as it is, whatever everybody else calls. */
  lemma {:induction false} OnlyParties(init: Db, ops: seq<Op>, log: seq<nat>, k: nat, o: Id)
    requires InRange(ops, log) && k <= |log| && Replay(init, ops, log).Some?
    requires InRange(ops, log[..k]) && Replay(init, ops, log[..k]).Some? && o in Replay(init, ops, log[..k]).value.orders
    requires forall n :: k <= n < |log| ==>
               !MovesAsParty(ops[log[n]], o, Replay(init, ops, log[..k]).value.orders[o])
    ensures o in Replay(init, ops, log).value.orders
    ensures Replay(init, ops, log).value.orders[o] == Replay(init, ops, log[..k]).value.orders[o]
  {
    if k == |log| {
      assert log[..k] == log;
    } else {
      var n := |log| - 1;
      var before := ReplayPrefix(init, ops, log);
      assert log[..n][..k] == log[..k];
      OnlyParties(init, ops, log[..n], k, o);
      OthersCannotMove(before, ops[log[n]], o);
      hide Apply, MovesAsParty;
    }
  }

  /** The orders of customer u. */
  function OrdersOf(db: Db, u: Id): map<Id, Order> {
    map o | o in db.orders && db.orders[o].user == u :: db.orders[o]
  }

  /** The call is not u's, and no restaurant's move of an order. */
  predicate MadeByOthers(op: Op, u: Id) {
    match op
    case Checkout(input, _, _) => input.user != u
    case ChangeStatus(_, _, _, _) => false
    case CustomerCancel(user, _, _) => user != u
    case _ => true
  }

  lemma OthersLeave(db: Db, op: Op, u: Id)
    requires Apply(db, op).Ok? && MadeByOthers(op, u)
    ensures OrdersOf(Apply(db, op).value, u) == OrdersOf(db, u)
  {
    var after := Apply(db, op).value;
    forall o | o in db.orders && db.orders[o].user == u ensures o in after.orders && after.orders[o] == db.orders[o] {
      OthersCannotMove(db, op, o);
    }
    forall o | o in after.orders && after.orders[o].user == u ensures o in db.orders && db.orders[o].user == u {
      if op.Checkout? {
        CheckoutWrites(db, op);
      } else if op.CustomerCancel? {
        CancelAccepted(db, op);
        MoveEffect(db, op, 0);
        assert o != op.order ==> after.orders[o] == db.orders[o];
        CancelOwner(db, op);
      } else {
        MenuStock(db, op, 0);
      }
    }
    hide Apply;
  }

  lemma CancelOwner(db: Db, op: Op)
    requires op.CustomerCancel? && Apply(db, op).Ok?
    ensures op.order in Apply(db, op).value.orders
    ensures Apply(db, op).value.orders[op.order].user == db.orders[op.order].user
  {
    hide RefundFault, Restock;
  }

  /** Customers cannot reach each other: no history of other customers' checkouts and cancellations, and of
      menu calls, adds, removes or changes an order of u. */
  lemma {:induction false} CustomersIsolated(init: Db, ops: seq<Op>, log: seq<nat>, u: Id)
    requires InRange(ops, log) && Replay(init, ops, log).Some?
    requires forall k :: 0 <= k < |log| ==> MadeByOthers(ops[log[k]], u)
    ensures OrdersOf(Replay(init, ops, log).value, u) == OrdersOf(init, u)
  {
    if log != [] {
      var n := |log| - 1;
      var before := ReplayPrefix(init, ops, log);
      CustomersIsolated(init, ops, log[..n], u);
      OthersLeave(before, ops[log[n]], u);
      hide Apply, OrdersOf, MadeByOthers;
    }
  }
}
