/** Menu calls check ownership in unlocked reads and write later. The check is still good at the
    write, because owners never change and ids never come back, and the write is exactly the
    sequential call on the visible tables. */
module EngineMenu {
  import opened Domain
  import opened Spec
  import opened Tables
  import opened Engine
  import opened EngineInvariant
  import opened EngineVisibility
  import opened EngineBuyer

  ghost predicate Partner(s: State, i: nat) {
    i < |s.sessions| && !s.sessions[i].op.IsOrderOp()
  }

  // ---------- check ----------

  lemma CheckedOk(t: Session, db: Db)
    requires !t.op.IsOrderOp() && Clean(t) && MenuFault(db, FirstCheck(t.op)).None?
    requires t.op.EditItem? ==> PatchInRange(t.op.patch)
    ensures var vetting := t.op.EditItem? && t.op.patch.category.Some?;
            Local(t.(pc := if vetting then Vetting else Writing, known := t.known + Observed(t.op)), db)
    ensures Observed(t.op) <= db.dishes.Keys + db.categories.Keys
  {
  }

  lemma BeginMenuStep(s: State, i: nat)
    requires Inv(s) && Partner(s, i) && s.sessions[i].pc.Start?
    ensures Unseen(s, i, BeginMenu(s, i))
  {
    var t := s.sessions[i];
    var fault := MenuFault(s.db, FirstCheck(t.op));
    if t.op.EditItem? && !PatchInRange(t.op.patch) {
      RejectStep(s, i, InvalidInput);
    } else if fault.Some? {
      RejectStep(s, i, fault.value);
    } else {
      assert Local(t, s.db);
      CheckedOk(t, s.db);
      var vetting := t.op.EditItem? && t.op.patch.category.Some?;
      var t' := t.(pc := if vetting then Vetting else Writing, known := t.known + Observed(t.op));
      assert Footprint(t') == Footprint(t) && Pending(t') <= Pending(t);
      hide Local, Footprint, Pending, MenuFault, LocksOk, FreshOk, WellFormed;
      ControlStep(s, i, t');
    }
  }

  lemma VetStep(s: State, i: nat)
    requires Inv(s) && Partner(s, i) && s.sessions[i].pc.Vetting? && s.sessions[i].op.EditItem?
    ensures Unseen(s, i, Vet(s, i))
  {
    var t := s.sessions[i];
    var op := t.op;
    if op.patch.category.Some? && !CategoryOf(s.db.categories, op.patch.category.value, op.restaurant) {
      RejectStep(s, i, CategoryNotFound);
    } else {
      assert Local(t, s.db);
      var t' := t.(pc := Writing);
      assert Local(t', s.db);
      assert Footprint(t') == Footprint(t) && Pending(t') <= Pending(t);
      hide Local, Footprint, Pending, LocksOk, FreshOk, WellFormed;
      ControlStep(s, i, t');
    }
  }

  // ---------- claim ----------

  /** The statement has reached its row and goes on to its constraint check. */
  ghost predicate Claims(s: State, i: nat) {
    && Partner(s, i) && s.sessions[i].pc.Writing?
    && Target(s.sessions[i].op).Some? && Free(s, Target(s.sessions[i].op).value)
    && ChecksLater(s.db, s.sessions[i].op)
  }

  lemma ClaimStep(s: State, i: nat)
    requires Inv(s) && Claims(s, i)
    ensures Unseen(s, i, Write(s, i).value)
  {
    var t := s.sessions[i];
    var r := Target(t.op).value;
    var s' := Write(s, i).value;
    assert Local(t, s.db);
    assert s'.sessions[i] == t.(pc := Checking) && Local(s'.sessions[i], s'.db);
    assert Footprint(t) == {} && Footprint(s'.sessions[i]) == {r} && Pending(s'.sessions[i]) == {};
    hide Local, Footprint, Pending, WellFormed, Visible, ChecksLater, Vetted;
    QuietSight(s, i, s');
    LockOne(s, i, s', r);
    SameTables(s, i, s');
    hide LocksOk, FreshOk, AllLocal, SameSight, LockStep, TableStep;
    WorkStep(s, i, s');
  }

  // ---------- what a write sees is what everybody sees ----------

  /** Changed rows differ from their images in stock alone, so every other column reads the same. */
  lemma ColumnsVisible(s: State, d: Id)
    requires AllLocal(s) && LocksOk(s) && d in s.db.dishes
    ensures s.db.dishes[d] == DishImage(s, d).(stock := s.db.dishes[d].stock)
  {
    if DishRow(d) in s.locks {
      LocalBacked(s, s.locks[DishRow(d)]);
    }
  }

  /** A row that no transaction has changed reads the same to everybody. */
  lemma OwnRowVisible(s: State, i: nat, d: Id)
    requires i < |s.sessions| && NotOthers(s, i, DishRow(d)) && s.sessions[i].before == map[] && d in s.db.dishes
    ensures DishImage(s, d) == s.db.dishes[d]
  {
  }

  /** An order row mentions the same dishes whether or not somebody is moving it. */
  lemma MentionsVisible(s: State, o: Id, d: Id)
    requires AllLocal(s) && LocksOk(s) && o in s.db.orders && Free(s, DishRow(d))
    ensures Invisible(s, o) ==> !Mentions(s.db.orders[o], d)
    ensures Mentions(OrderImage(s, o), d) == Mentions(s.db.orders[o], d)
  {
    if OrderRow(o) in s.locks {
      var j := s.locks[OrderRow(o)];
      LocalBacked(s, j);
      FootprintOrder(s.sessions[j], o);
      if Invisible(s, o) {
        InsertedMentions(s, j, d);
      }
    }
  }

  /** The lines of an order still being inserted are all locked by its checkout. */
  lemma InsertedMentions(s: State, j: nat, d: Id)
    requires LocksOk(s) && AllLocal(s) && j < |s.sessions| && s.sessions[j].op.IsOrderOp()
    requires s.sessions[j].orderUndo == Inserted && Free(s, DishRow(d))
    requires OrderIdOf(s.sessions[j].op) in s.db.orders
    ensures !Mentions(s.db.orders[OrderIdOf(s.sessions[j].op)], d)
  {
    var t := s.sessions[j];
    assert Local(t, s.db);
    var items := s.db.orders[t.op.orderId].items;
    forall k | 0 <= k < |items| ensures items[k].dish != d {
      assert Ids(t.rows)[k] == items[k].dish;
      assert DishRow(items[k].dish) in Footprint(t);
    }
  }

  lemma OrderedVisible(s: State, d: Id)
    requires AllLocal(s) && LocksOk(s) && Free(s, DishRow(d))
    ensures DishOrdered(Visible(s), d) == DishOrdered(s.db, d)
  {
    forall o | o in s.db.orders
      ensures Invisible(s, o) ==> !Mentions(s.db.orders[o], d)
      ensures Mentions(OrderImage(s, o), d) == Mentions(s.db.orders[o], d)
    {
      MentionsVisible(s, o, d);
    }
    hide Mentions, OrderImage, Invisible, LocksOk;
    if o :| o in s.db.orders && Mentions(s.db.orders[o], d) {
      assert o in Visible(s).orders && Mentions(Visible(s).orders[o], d);
    }
  }

  lemma UsedVisible(s: State, c: Id)
    requires AllLocal(s) && LocksOk(s)
    ensures CategoryUsed(Visible(s), c) == CategoryUsed(s.db, c)
  {
    forall d | d in s.db.dishes ensures DishImage(s, d).category == s.db.dishes[d].category {
      ColumnsVisible(s, d);
    }
    hide DishImage, LocksOk;
    if d :| d in s.db.dishes && s.db.dishes[d].category == c {
      assert d in Visible(s).dishes && Visible(s).dishes[d].category == c;
    }
  }

  /** The statement can settle now: it holds its row or its row is free, and nothing bars its check. */
  ghost predicate Settles(s: State, i: nat) {
    && Partner(s, i)
    && var t := s.sessions[i];
       && (Target(t.op).Some? ==> NotOthers(s, i, Target(t.op).value))
       && (t.pc.Checking? || (t.pc.Writing? && (Target(t.op).Some? ==> !ChecksLater(s.db, t.op))))
  }

  lemma SettlerKnows(s: State, i: nat)
    requires LocalAt(s, i) && Settles(s, i)
    ensures Clean(s.sessions[i]) && Vetted(s.sessions[i], s.db)
    ensures forall r | r in Footprint(s.sessions[i]) :: Some(r) == Target(s.sessions[i].op)
    ensures var t := s.sessions[i];
            t.op.DropItem? || t.op.AddCategory? || t.op.AddItem? ==> t.pc.Writing?
  {
    assert Local(s.sessions[i], s.db);
  }

  /** The owner check made before the write would pass on the visible tables at the write. */
  lemma CheckStillGood(s: State, i: nat)
    requires Inv(s) && Settles(s, i) && Statement(s.db, s.sessions[i].op).Ok?
    ensures MenuFault(Visible(s), s.sessions[i].op).None?
  {
    var op := s.sessions[i].op;
    SettlerKnows(s, i);
    if op.EditItem? || op.DropItem? {
      ColumnsVisible(s, op.item);
    }
    hide LocksOk, AllLocal, FreshOk, WellFormed, DishImage, NameTaken, CategoryUsed, DishOrdered;
  }

  // ---------- settle ----------

  /** The dish row a statement changes, inserts or deletes. */
  function Touched(op: Op): set<Id> {
    match op
    case AddItem(item, _) => {item}
    case EditItem(_, item, patch) => if patch == NoChange then {} else {item}
    case DropItem(_, item) => {item}
    case _ => {}
  }

  /** The category row a statement changes, inserts or deletes. */
  function TouchedCategories(op: Op): set<Id> {
    match op
    case AddCategory(_, category, _) => {category}
    case RenameCategory(_, category, _) => {category}
    case DropCategory(_, category) => {category}
    case _ => {}
  }

  /** A statement leaves the orders and every other row alone, keeps owners, and only adds the
      identifier the call brought. */
  lemma StatementEffect(db: Db, op: Op)
    requires !op.IsOrderOp() && Statement(db, op).Ok?
    ensures var after := Statement(db, op).value;
            && after.orders == db.orders
            && (forall d | d !in Touched(op) :: d in after.dishes <==> d in db.dishes)
            && (forall d | d in db.dishes && d !in Touched(op) :: after.dishes[d] == db.dishes[d])
            && (forall c | c !in TouchedCategories(op) :: c in after.categories <==> c in db.categories)
            && (forall c | c in db.categories && c !in TouchedCategories(op) :: after.categories[c] == db.categories[c])
            && (forall d | d in after.dishes && d in db.dishes :: after.dishes[d].restaurant == db.dishes[d].restaurant)
            && (forall c | c in after.categories && c in db.categories ::
                  after.categories[c].restaurant == db.categories[c].restaurant)
            && (forall d | d in after.dishes && d !in db.dishes :: op.AddItem? && d == op.item)
            && (forall c | c in after.categories && c !in db.categories :: op.AddCategory? && c == op.category)
  {
  }

  /** The rows a statement touches are held by nobody else. */
  lemma TouchedFree(s: State, i: nat)
    requires LocksOk(s) && AllLocal(s) && FreshOk(s) && Settles(s, i)
    ensures forall d | d in Touched(s.sessions[i].op) :: NotOthers(s, i, DishRow(d))
    ensures forall c | c in TouchedCategories(s.sessions[i].op) :: NotOthers(s, i, CategoryRow(c))
  {
    var op := s.sessions[i].op;
    assert LocalAt(s, i);
    SettlerKnows(s, i);
    HeldRows(s);
    if op.AddItem? {
      assert op.item in Pending(s.sessions[i]);
      assert Unused(s.db, op.item);
      assert DishRow(op.item) in s.locks ==> RowKept(s.db, s.db, DishRow(op.item));
    }
    if op.AddCategory? {
      assert op.category in Pending(s.sessions[i]);
      assert Unused(s.db, op.category);
      assert CategoryRow(op.category) in s.locks ==> RowKept(s.db, s.db, CategoryRow(op.category));
    }
  }

  lemma SettleShape(s: State, i: nat)
    requires LocalAt(s, i) && Settles(s, i) && Statement(s.db, s.sessions[i].op).Ok?
    ensures var s' := Settle(s, i);
            && s'.db == Statement(s.db, s.sessions[i].op).value && s'.locks == Unlocked(s.locks, i)
            && s'.sessions == s.sessions[i := s.sessions[i].(pc := Finished)]
            && s'.log == s.log + [i]
  {
    SettlerKnows(s, i);
    hide Statement, Vetted, Unlocked, Footprint, ChecksLater;
  }

  /** A row the statement does not touch stays as it was. */
  lemma UntouchedKept(db: Db, op: Op, r: Row)
    requires !op.IsOrderOp() && Statement(db, op).Ok? && RowKept(db, db, r)
    requires r.DishRow? ==> r.id !in Touched(op)
    requires r.CategoryRow? ==> r.id !in TouchedCategories(op)
    ensures RowKept(db, Statement(db, op).value, r)
  {
    StatementEffect(db, op);
    hide Statement, Touched, TouchedCategories;
  }

  lemma HeldUntouched(s: State, i: nat, r: Row)
    requires LocksOk(s) && AllLocal(s) && FreshOk(s) && Settles(s, i)
    requires r in s.locks && s.locks[r] != i
    ensures r.DishRow? ==> r.id !in Touched(s.sessions[i].op)
    ensures r.CategoryRow? ==> r.id !in TouchedCategories(s.sessions[i].op)
  {
    TouchedFree(s, i);
    hide LocksOk, AllLocal, FreshOk, Settles, Touched, TouchedCategories;
  }

  lemma RowsKeptBySettle(s: State, i: nat)
    requires LocksOk(s) && AllLocal(s) && FreshOk(s) && Settles(s, i) && Statement(s.db, s.sessions[i].op).Ok?
    ensures forall r | r in s.locks && s.locks[r] != i :: RowKept(s.db, Statement(s.db, s.sessions[i].op).value, r)
  {
    assert Partner(s, i);
    hide *;
    HeldRows(s);
    forall r | r in s.locks && s.locks[r] != i
      ensures RowKept(s.db, Statement(s.db, s.sessions[i].op).value, r)
    {
      HeldUntouched(s, i, r);
      UntouchedKept(s.db, s.sessions[i].op, r);
    }
  }

  /** The identifier an insert brings is still to come at its statement. */
  lemma SettlesPending(s: State, i: nat)
    requires LocalAt(s, i) && Settles(s, i)
    ensures s.sessions[i].op.AddItem? ==> s.sessions[i].op.item in Pending(s.sessions[i])
    ensures s.sessions[i].op.AddCategory? ==> s.sessions[i].op.category in Pending(s.sessions[i])
  {
    SettlerKnows(s, i);
    hide Vetted, Footprint, Settles;
  }

  lemma SettleTables(s: State, i: nat)
    requires Inv(s) && Settles(s, i) && Statement(s.db, s.sessions[i].op).Ok?
    ensures TableStep(s, i, Settle(s, i))
  {
    assert LocksOk(s) && AllLocal(s) && FreshOk(s) && LocalAt(s, i) && Partner(s, i);
    var s' := Settle(s, i);
    SettleShape(s, i);
    assert Pending(s'.sessions[i]) == {};
    SettlesPending(s, i);
    RowsKeptBySettle(s, i);
    StatementEffect(s.db, s.sessions[i].op);
    hide Inv, Footprint, Pending, Local, Statement, Visible, WellFormed, FreshOk, Settle, Settles, LocksOk, AllLocal,
      LocalAt, Target, Unlocked, Touched, TouchedCategories, RowKept, Partner;
  }

  lemma SettleOwn(s: State, i: nat)
    requires Inv(s) && Settles(s, i) && Statement(s.db, s.sessions[i].op).Ok?
    ensures OwnStep(s, i, Settle(s, i))
  {
    var s' := Settle(s, i);
    assert LocalAt(s, i);
    SettlerKnows(s, i);
    SettleShape(s, i);
    assert Local(s'.sessions[i], s'.db);
    hide Inv, Footprint, Local, Statement, Visible, WellFormed, FreshOk, Settle, Settles, LocksOk, AllLocal, Vetted;
  }

  lemma SettleLocks(s: State, i: nat)
    requires Inv(s) && Settles(s, i) && Statement(s.db, s.sessions[i].op).Ok?
    ensures |Settle(s, i).sessions| == |s.sessions| && LockStep(s, i, Settle(s, i))
  {
    var s' := Settle(s, i);
    assert LocalAt(s, i);
    SettleShape(s, i);
    assert Footprint(s'.sessions[i]) == {};
    hide Inv, Footprint, Local, LocalAt, Statement, Visible, WellFormed, FreshOk, Settle, Settles, LocksOk, AllLocal;
  }

  lemma SettleGood(s: State, i: nat)
    requires Inv(s) && Settles(s, i) && Statement(s.db, s.sessions[i].op).Ok?
    ensures GoodStep(s, i, Settle(s, i))
  {
    SettleOwn(s, i);
    SettleLocks(s, i);
    SettleTables(s, i);
    hide Inv, OwnStep, LockStep, TableStep, Statement, Settle, Settles;
  }

  /** The dish table others see after the statement. */
  function DishesWritten(s: State, after: Db, op: Op): map<Id, Dish> {
    map d | d in after.dishes :: if d in Touched(op) || d !in s.db.dishes then after.dishes[d] else DishImage(s, d)
  }

  lemma WrittenDish(s: State, i: nat, d: Id)
    requires LocksOk(s) && AllLocal(s) && FreshOk(s) && Settles(s, i) && Statement(s.db, s.sessions[i].op).Ok?
    requires d in Statement(s.db, s.sessions[i].op).value.dishes
    ensures d in Settle(s, i).db.dishes
    ensures var after := Statement(s.db, s.sessions[i].op).value;
            DishImage(Settle(s, i), d) == DishesWritten(s, after, s.sessions[i].op)[d]
  {
    var op := s.sessions[i].op;
    assert LocalAt(s, i) && Partner(s, i);
    SettlerKnows(s, i);
    SettleShape(s, i);
    StatementEffect(s.db, op);
    TouchedFree(s, i);
    assert d !in s.db.dishes ==> d in Touched(op);
    hide Local, LocalAt, Footprint, Pending, Statement, FreshOk, AllLocal, LocksOk, Touched, TouchedCategories, Settle,
      Settles, Target, Vetted;
  }

  /** Orders look the same: neither an order row, nor its lock, nor its holder's undo log has moved. */
  lemma WrittenOrder(s: State, i: nat, o: Id)
    requires LocksOk(s) && AllLocal(s) && Settles(s, i) && Statement(s.db, s.sessions[i].op).Ok?
    ensures SeenByAll(Settle(s, i), o) == SeenByAll(s, o)
  {
    assert LocalAt(s, i) && Partner(s, i);
    SettlerKnows(s, i);
    SettleShape(s, i);
    StatementEffect(s.db, s.sessions[i].op);
    assert s.sessions[i].orderUndo == Untouched;
    hide Local, LocalAt, Footprint, Statement, AllLocal, LocksOk, Touched, TouchedCategories, Settle, Settles, Target,
      Vetted, Clean;
  }

  lemma WrittenOrders(s: State, i: nat)
    requires LocksOk(s) && AllLocal(s) && Settles(s, i) && Statement(s.db, s.sessions[i].op).Ok?
    ensures Visible(Settle(s, i)).orders == Visible(s).orders
  {
    assert Partner(s, i);
    hide *;
    var s' := Settle(s, i);
    forall o ensures SeenByAll(s', o) == SeenByAll(s, o) {
      WrittenOrder(s, i, o);
    }
    OrdersVisible(s, s');
  }

  lemma WrittenDishes(s: State, i: nat)
    requires LocksOk(s) && AllLocal(s) && FreshOk(s) && Settles(s, i) && Statement(s.db, s.sessions[i].op).Ok?
    ensures var after := Statement(s.db, s.sessions[i].op).value;
            Visible(Settle(s, i)).dishes == DishesWritten(s, after, s.sessions[i].op)
  {
    var op := s.sessions[i].op;
    var after := Statement(s.db, op).value;
    var s' := Settle(s, i);
    assert s'.db == after by { assert LocalAt(s, i); SettleShape(s, i); }
    forall d | d in after.dishes
      ensures d in s'.db.dishes && DishImage(s', d) == DishesWritten(s, after, op)[d]
    {
      WrittenDish(s, i, d);
    }
    hide Partner, Settles, Statement, FreshOk, AllLocal, LocksOk, Settle, DishImage, Touched;
  }

  /** Others see exactly the statement's own changes. */
  lemma SettleVisible(s: State, i: nat)
    requires LocksOk(s) && AllLocal(s) && FreshOk(s) && Settles(s, i) && Statement(s.db, s.sessions[i].op).Ok?
    ensures var after := Statement(s.db, s.sessions[i].op).value;
            Visible(Settle(s, i)) ==
            Db(after.categories, DishesWritten(s, after, s.sessions[i].op), Visible(s).orders)
  {
    assert Visible(Settle(s, i)).categories == Statement(s.db, s.sessions[i].op).value.categories by {
      assert LocalAt(s, i);
      SettleShape(s, i);
    }
    hide *;
    WrittenOrders(s, i);
    WrittenDishes(s, i);
  }

  // ---------- the statement is the sequential call on the visible tables ----------

  lemma CategoryWrite(s: State, op: Op)
    requires AllLocal(s) && LocksOk(s) && (op.AddCategory? || op.RenameCategory? || op.DropCategory?)
    requires Statement(s.db, op).Ok?
    ensures var after := Statement(s.db, op).value;
            Statement(Visible(s), op) == Ok(Db(after.categories, DishesWritten(s, after, op), Visible(s).orders))
  {
    if op.DropCategory? {
      UsedVisible(s, op.category);
    }
    assert Statement(s.db, op).value.dishes == s.db.dishes;
    assert DishesWritten(s, Statement(s.db, op).value, op) == Visible(s).dishes;
    hide LocksOk, AllLocal, DishesWritten, DishImage, CategoryUsed, NameTaken;
  }

  lemma AddWrite(s: State, op: Op)
    requires op.AddItem? && Statement(s.db, op).Ok?
    ensures var after := Statement(s.db, op).value;
            Statement(Visible(s), op) == Ok(Db(after.categories, DishesWritten(s, after, op), Visible(s).orders))
  {
    var after := Statement(s.db, op).value;
    assert DishesWritten(s, after, op) == Visible(s).dishes[op.item := op.dish];
  }

  lemma EditWrite(s: State, i: nat)
    requires Settles(s, i) && Clean(s.sessions[i]) && s.sessions[i].op.EditItem?
    requires Statement(s.db, s.sessions[i].op).Ok?
    ensures var op := s.sessions[i].op;
            var after := Statement(s.db, op).value;
            Statement(Visible(s), op) == Ok(Db(after.categories, DishesWritten(s, after, op), Visible(s).orders))
  {
    var op := s.sessions[i].op;
    var after := Statement(s.db, op).value;
    if op.patch == NoChange {
      assert DishesWritten(s, after, op) == Visible(s).dishes;
    } else {
      OwnRowVisible(s, i, op.item);
      hide DishImage;
      assert DishesWritten(s, after, op) == Visible(s).dishes[op.item := Patched(s.db.dishes[op.item], op.patch)];
    }
  }

  lemma DropWrite(s: State, op: Op)
    requires AllLocal(s) && LocksOk(s) && op.DropItem? && Statement(s.db, op).Ok? && Free(s, DishRow(op.item))
    ensures var after := Statement(s.db, op).value;
            Statement(Visible(s), op) == Ok(Db(after.categories, DishesWritten(s, after, op), Visible(s).orders))
  {
    var after := Statement(s.db, op).value;
    OrderedVisible(s, op.item);
    hide AllLocal, LocksOk, DishOrdered;
    assert DishesWritten(s, after, op) == Visible(s).dishes - {op.item};
  }

  /** A single-step delete finds its row held by nobody. */
  lemma DropFree(s: State, i: nat)
    requires LocksOk(s) && AllLocal(s) && Settles(s, i) && s.sessions[i].op.DropItem?
    ensures Free(s, DishRow(s.sessions[i].op.item))
  {
    assert LocalAt(s, i);
    SettlerKnows(s, i);
    assert Footprint(s.sessions[i]) == {};
  }

  lemma StatementCommits(s: State, i: nat)
    requires LocksOk(s) && AllLocal(s) && Settles(s, i) && Statement(s.db, s.sessions[i].op).Ok?
    ensures var op := s.sessions[i].op;
            var after := Statement(s.db, op).value;
            Statement(Visible(s), op) == Ok(Db(after.categories, DishesWritten(s, after, op), Visible(s).orders))
  {
    var op := s.sessions[i].op;
    if op.AddItem? {
      AddWrite(s, op);
    } else if op.EditItem? {
      assert LocalAt(s, i);
      SettlerKnows(s, i);
      EditWrite(s, i);
    } else if op.DropItem? {
      DropFree(s, i);
      DropWrite(s, op);
    } else {
      CategoryWrite(s, op);
    }
  }

  /** The write of a menu call, unlocked ownership check included, is the sequential call. */
  lemma WriteCommits(s: State, i: nat)
    requires Inv(s) && Settles(s, i) && Statement(s.db, s.sessions[i].op).Ok?
    ensures Apply(Visible(s), s.sessions[i].op) == Ok(Visible(Settle(s, i)))
  {
    CheckStillGood(s, i);
    SettleVisible(s, i);
    StatementCommits(s, i);
    hide AllLocal, LocksOk, FreshOk, WellFormed, Statement, Visible, Settle, DishesWritten, MenuFault, Settles;
  }
}
