/** The verdict on a status change and on a customer's cancellation over the order's own row: who may move
    it, from which status to which, and what an accepted move writes. */
module MoveVerdict {
  import opened Domain
  import opened Spec
  import opened Tables

  // ---------- the condition ----------

  /** The five forward moves. */
  predicate Forward(from: Status, to: Status) {
    || (from == Created && to == Accepted)
    || (from == Accepted && to == Cooking)
    || (from == Cooking && to == Ready)
    || (from == Ready && to == Delivering)
    || (from == Delivering && to == Completed)
  }

  /** Every line can go back: its dish is there and its stock stays within int4. */
  ghost predicate Returnable(db: Db, items: seq<OrderItem>) {
    forall k :: 0 <= k < |items| ==>
      items[k].dish in db.dishes && db.dishes[items[k].dish].stock + items[k].qty <= 0x7FFF_FFFF
  }

  /** The caller names an order of its own restaurant. */
  ghost predicate OwnOrder(db: Db, op: Op)
    requires op.ChangeStatus?
  {
    && op.restaurant != 0 && op.order != 0
    && op.order in db.orders && db.orders[op.order].restaurant == op.restaurant
  }

  /** The caller names an order placed by that same customer. */
  ghost predicate PlacedOrder(db: Db, op: Op)
    requires op.CustomerCancel?
  {
    && op.user != 0 && op.order != 0
    && op.order in db.orders && db.orders[op.order].user == op.user
  }

  /** What stops the return of a receipt at line k. */
  ghost predicate StopsAt(db: Db, items: seq<OrderItem>, k: nat)
    requires k < |items|
  {
    && Returnable(db, items[..k])
    && (items[k].dish in db.dishes ==> db.dishes[items[k].dish].stock + items[k].qty > 0x7FFF_FFFF)
  }

  lemma ReturnsUntil(db: Db, items: seq<OrderItem>, k: nat)
    requires k < |items| && StopsAt(db, items, k)
    ensures RefundFault(db.dishes, items) == Some(if items[k].dish in db.dishes then InvalidInput else MenuItemNotFound)
  {
    forall j | 0 <= j < k
      ensures items[j].dish in db.dishes && db.dishes[items[j].dish].stock + items[j].qty <= INT4_MAX
    {
      assert items[..k][j] == items[j];
    }
    FirstRefundFault(db.dishes, items, k);
  }

  // ---------- the restaurant's status change ----------

  /** Accepted exactly for an order of the caller's restaurant, along one of the five forward moves, or into
      cancelled from created, accepted or cooking when everything can go back on the shelf. */
  lemma StatusAccepted(db: Db, op: Op)
    requires op.ChangeStatus?
    ensures Apply(db, op).Ok? <==>
            && OwnOrder(db, op)
            && var order := db.orders[op.order];
               if op.status == Cancelled
               then order.status in {Created, Accepted, Cooking} && Returnable(db, order.items)
               else Forward(order.status, op.status)
  {
    if op.order in db.orders {
      RefundFaultNone(db.dishes, db.orders[op.order].items);
    }
    hide RefundFault, Restock;
  }

  /** Which check refuses it otherwise. */
  lemma StatusRefused(db: Db, op: Op)
    requires op.ChangeStatus?
    ensures op.restaurant == 0 || op.order == 0 ==> Apply(db, op) == Err(InvalidInput)
    ensures op.restaurant != 0 && op.order != 0 && !OwnOrder(db, op) ==> Apply(db, op) == Err(NotFound)
    ensures OwnOrder(db, op) && op.status == Cancelled
            && db.orders[op.order].status in {Ready, Delivering, Completed, Cancelled} ==>
              Apply(db, op) == Err(OrderAlreadyProcessed)
    ensures OwnOrder(db, op) && op.status != Cancelled && !Forward(db.orders[op.order].status, op.status) ==>
              Apply(db, op) == Err(InvalidStatusTransition)
  {
    hide RefundFault, Restock;
  }

  /** The return stops at the first line that does not fit, or whose dish is gone. */
  lemma StatusStopped(db: Db, op: Op, k: nat)
    requires op.ChangeStatus? && OwnOrder(db, op) && op.status == Cancelled
    requires db.orders[op.order].status in {Created, Accepted, Cooking}
    requires k < |db.orders[op.order].items| && StopsAt(db, db.orders[op.order].items, k)
    ensures Apply(db, op) ==
            Err(if db.orders[op.order].items[k].dish in db.dishes then InvalidInput else MenuItemNotFound)
  {
    ReturnsUntil(db, db.orders[op.order].items, k);
    hide RefundFault, Restock, StopsAt;
  }

  // ---------- the customer's cancellation ----------

  /** Accepted exactly for an order that this customer placed, that nobody has taken up yet, and whose
      receipt can go back on the shelf. */
  lemma CancelAccepted(db: Db, op: Op)
    requires op.CustomerCancel?
    ensures Apply(db, op).Ok? <==>
            PlacedOrder(db, op) && db.orders[op.order].status == Created && Returnable(db, db.orders[op.order].items)
  {
    if op.order in db.orders {
      RefundFaultNone(db.dishes, db.orders[op.order].items);
    }
    hide RefundFault, Restock;
  }

  /** Which check refuses it otherwise: to anybody else the order does not exist. */
  lemma CancelRefused(db: Db, op: Op)
    requires op.CustomerCancel?
    ensures op.user == 0 || op.order == 0 ==> Apply(db, op) == Err(InvalidInput)
    ensures op.user != 0 && op.order != 0 && !PlacedOrder(db, op) ==> Apply(db, op) == Err(NotFound)
    ensures PlacedOrder(db, op) && db.orders[op.order].status != Created ==> Apply(db, op) == Err(OrderAlreadyProcessed)
  {
    hide RefundFault, Restock;
  }

  lemma CancelStopped(db: Db, op: Op, k: nat)
    requires op.CustomerCancel? && PlacedOrder(db, op) && db.orders[op.order].status == Created
    requires k < |db.orders[op.order].items| && StopsAt(db, db.orders[op.order].items, k)
    ensures Apply(db, op) ==
            Err(if db.orders[op.order].items[k].dish in db.dishes then InvalidInput else MenuItemNotFound)
  {
    ReturnsUntil(db, db.orders[op.order].items, k);
    hide RefundFault, Restock, StopsAt;
  }

  // ---------- what is written ----------

  /** Order o has moved, with one more entry in its trail, and is otherwise as it was, like all others. */
  ghost predicate Moved(db: Db, after: Db, o: Id, to: Status, actor: Actor) {
    && o in db.orders && after.categories == db.categories && after.orders.Keys == db.orders.Keys
    && (forall p | p in db.orders && p != o :: after.orders[p] == db.orders[p])
    && var was, now := db.orders[o], after.orders[o];
       && now.status == to && now.history == was.history + [Entry(Some(was.status), to, actor)]
       && now.user == was.user && now.restaurant == was.restaurant && now.total == was.total && now.items == was.items
  }

  /** Every line of the receipt is back on the shelf, and nothing else has moved there. */
  ghost predicate PutBack(db: Db, after: Db, items: seq<OrderItem>) {
    && after.dishes.Keys == db.dishes.Keys
    && (forall k :: 0 <= k < |items| ==>
          && items[k].dish in db.dishes
          && after.dishes[items[k].dish]
             == db.dishes[items[k].dish].(stock := db.dishes[items[k].dish].stock + items[k].qty))
    && (forall d | d in db.dishes && (forall k :: 0 <= k < |items| ==> items[k].dish != d) ::
          after.dishes[d] == db.dishes[d])
  }

  lemma RestockPutsBack(db: Db, after: Db, items: seq<OrderItem>)
    requires ItemsOk(items) && RefundFault(db.dishes, items).None?
    requires after.dishes == Restock(db.dishes, items, true)
    ensures PutBack(db, after, items)
  {
    RefundFaultNone(db.dishes, items);
    forall k | 0 <= k < |items| ensures QtyOf(items, items[k].dish) == items[k].qty {
      QtyOfLine(items, k);
    }
    forall d | d in db.dishes && (forall k :: 0 <= k < |items| ==> items[k].dish != d) ensures QtyOf(items, d) == 0 {
      QtyOfAbsent(items, d);
    }
    hide QtyOf, RefundFault, ItemsOk;
  }

  lemma StampMoves(db: Db, o: Id, to: Status, actor: Actor)
    requires o in db.orders && MoveSpec(db, o, to, actor).Ok?
    ensures var after := MoveSpec(db, o, to, actor).value;
            && Moved(db, after, o, to, actor)
            && if to == Cancelled
               then RefundFault(db.dishes, db.orders[o].items).None?
                    && after.dishes == Restock(db.dishes, db.orders[o].items, true)
               else after.dishes == db.dishes
  {
    hide RefundFault, Restock;
  }

  lemma MoveWrites(db: Db, o: Id, to: Status, actor: Actor)
    requires WellFormed(db) && o in db.orders && MoveSpec(db, o, to, actor).Ok?
    ensures var after := MoveSpec(db, o, to, actor).value;
            && Moved(db, after, o, to, actor)
            && if to == Cancelled then PutBack(db, after, db.orders[o].items) else after.dishes == db.dishes
  {
    assert ItemsOk(db.orders[o].items) by { assert OrderOk(db.orders[o], db.dishes); }
    hide *;
    StampMoves(db, o, to, actor);
    if to == Cancelled {
      RestockPutsBack(db, MoveSpec(db, o, to, actor).value, db.orders[o].items);
    }
  }

  /** An accepted status change moves its order, and returns the receipt exactly when it cancels. */
  lemma StatusWrites(db: Db, op: Op)
    requires WellFormed(db) && op.ChangeStatus? && Apply(db, op).Ok?
    ensures var after := Apply(db, op).value;
            && Moved(db, after, op.order, op.status, Restaurant)
            && if op.status == Cancelled then PutBack(db, after, db.orders[op.order].items)
               else after.dishes == db.dishes
  {
    assert op.order in db.orders && Apply(db, op) == MoveSpec(db, op.order, op.status, Restaurant);
    hide *;
    MoveWrites(db, op.order, op.status, Restaurant);
  }

  /** An accepted cancellation cancels that customer's order and returns its receipt. */
  lemma CancelWrites(db: Db, op: Op)
    requires WellFormed(db) && op.CustomerCancel? && Apply(db, op).Ok?
    ensures var after := Apply(db, op).value;
            Moved(db, after, op.order, Cancelled, Customer) && PutBack(db, after, db.orders[op.order].items)
  {
    assert op.order in db.orders && Apply(db, op) == MoveSpec(db, op.order, Cancelled, Customer);
    hide *;
    MoveWrites(db, op.order, Cancelled, Customer);
  }

  /** Read off a trail: who made which move, status by status. */
  lemma TrailMoves(history: seq<Entry>, k: nat)
    requires Chain(history) && k < |history|
    ensures var entry := history[k];
            || (k == 0 && entry == Entry(None, Created, System))
            || (k > 0 && entry.actor == Restaurant && entry.from.Some? && Forward(entry.from.value, entry.to))
            || (k > 0 && entry.actor == Customer && entry.from == Some(Created) && entry.to == Cancelled)
            || (k > 0 && entry.actor == Restaurant && entry.to == Cancelled
                && entry.from in {Some(Created), Some(Accepted), Some(Cooking)})
  {
    assert k > 0 ==> LegalMove(history[k - 1].to, history[k].to, history[k].actor);
  }
}
