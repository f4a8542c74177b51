/** Every step of a checkout keeps the invariant and stays unseen until its commit, which is
    exactly the sequential checkout on the visible tables. */
module EngineBuyer {
  import opened Domain
  import opened Spec
  import opened Tables
  import opened Engine
  import opened EngineInvariant
  import opened EngineVisibility

  // ---------- shapes of a working step ----------

  lemma SameLocks(s: State, i: nat, s': State)
    requires LocksOk(s) && i < |s.sessions| == |s'.sessions|
    requires s'.locks == s.locks && Footprint(s'.sessions[i]) == Footprint(s.sessions[i])
    ensures LockStep(s, i, s')
  {
  }

  /** Taking one free row. */
  lemma LockOne(s: State, i: nat, s': State, r: Row)
    requires LocksOk(s) && i < |s.sessions| == |s'.sessions| && Free(s, r)
    requires s'.locks == s.locks[r := i] && Footprint(s'.sessions[i]) == Footprint(s.sessions[i]) + {r}
    ensures LockStep(s, i, s')
  {
  }

  lemma SameTables(s: State, i: nat, s': State)
    requires LocksOk(s) && AllLocal(s) && FreshOk(s) && i < |s.sessions| == |s'.sessions|
    requires s'.db == s.db && Pending(s'.sessions[i]) <= Pending(s.sessions[i])
    ensures TableStep(s, i, s')
  {
    HeldRows(s);
    hide Footprint, Local;
    forall x | x in Pending(s'.sessions[i]) ensures Unused(s'.db, x) {
      assert x in Pending(s.sessions[i]);
    }
  }

  /** Changing one dish row that nobody else holds. */
  lemma DishWrite(s: State, i: nat, s': State, d: Id, dish: Dish)
    requires LocksOk(s) && AllLocal(s) && FreshOk(s) && i < |s.sessions| == |s'.sessions|
    requires d in s.db.dishes && NotOthers(s, i, DishRow(d)) && dish.restaurant == s.db.dishes[d].restaurant
    requires s'.db == s.db.(dishes := s.db.dishes[d := dish])
    requires Pending(s'.sessions[i]) <= Pending(s.sessions[i])
    ensures TableStep(s, i, s')
  {
    HeldRows(s);
    hide Footprint, Local;
    forall r | r in s.locks && s.locks[r] != i ensures RowKept(s.db, s'.db, r) {
      assert RowKept(s.db, s.db, r);
    }
    forall x | x in Pending(s'.sessions[i]) ensures Unused(s'.db, x) {
      assert Unused(s.db, x);
    }
  }

  /** Changing or inserting one order row that nobody else holds. */
  lemma OrderWrite(s: State, i: nat, s': State, o: Id, order: Order)
    requires LocksOk(s) && AllLocal(s) && FreshOk(s) && i < |s.sessions| == |s'.sessions|
    requires NotOthers(s, i, OrderRow(o)) && (o in s.db.orders || o in Pending(s.sessions[i]))
    requires s'.db == s.db.(orders := s.db.orders[o := order])
    requires Pending(s'.sessions[i]) == {}
    ensures TableStep(s, i, s')
  {
    HeldRows(s);
    hide Footprint, Local;
    forall r | r in s.locks && s.locks[r] != i ensures RowKept(s.db, s'.db, r) {
      assert RowKept(s.db, s.db, r);
    }
  }

  /** A working step is good and unseen once its parts are. */
  lemma WorkStep(s: State, i: nat, s': State)
    requires Inv(s) && i < |s.sessions|
    requires OwnStep(s, i, s') && LockStep(s, i, s') && TableStep(s, i, s') && SameSight(s, i, s')
    requires s'.log == s.log
    ensures Unseen(s, i, s')
  {
    SightKeepsVisible(s, i, s');
  }

  /** A step that leaves the tables and its undo log alone shows nothing new. */
  lemma QuietSight(s: State, i: nat, s': State)
    requires i < |s.sessions| == |s'.sessions| && s'.db == s.db
    requires s'.sessions[i].op == s.sessions[i].op && s'.sessions[i].before == s.sessions[i].before
    requires s'.sessions[i].orderUndo == s.sessions[i].orderUndo
    ensures SameSight(s, i, s')
  {
  }

  /** A dish row changed for the first time is hidden behind its before-image. */
  lemma DishWriteSight(s: State, i: nat, s': State, d: Id, dish: Dish)
    requires i < |s.sessions| == |s'.sessions| && d in s.db.dishes && d !in s.sessions[i].before
    requires s'.db == s.db.(dishes := s.db.dishes[d := dish])
    requires s'.sessions[i].op == s.sessions[i].op && s'.sessions[i].orderUndo == s.sessions[i].orderUndo
    requires s'.sessions[i].before == s.sessions[i].before[d := s.db.dishes[d]]
    ensures SameSight(s, i, s')
  {
  }

  // ---------- begin and scan ----------

  lemma BeginCheckoutStep(s: State, i: nat)
    requires Inv(s) && i < |s.sessions| && s.sessions[i].op.Checkout? && s.sessions[i].pc.Start?
    ensures Unseen(s, i, BeginCheckout(s, i))
  {
    var t := s.sessions[i];
    var fault := EntryFault(t.op.input, t.op.sample);
    assert Local(t, s.db);
    if fault.Some? {
      RejectStep(s, i, fault.value);
    } else {
      ControlStep(s, i, t.(pc := Scanning));
    }
  }

  lemma ScanRows(t: Session, dishes: map<Id, Dish>)
    requires t.op.Checkout? && t.rows == []
    ensures var found := WantOf(t).Keys * dishes.Keys;
            LockedSoFar(t.(pc := Locking(Ascending(found)), known := t.known + found), Ascending(found), dishes)
  {
    var found := WantOf(t).Keys * dishes.Keys;
    AscendingIs(found);
    assert Ids(t.rows) + Ascending(found) == Ascending(found);
  }

  lemma ScanLocal(s: State, i: nat)
    requires i < |s.sessions| && LocalAt(s, i) && s.sessions[i].op.Checkout? && s.sessions[i].pc.Scanning?
    ensures LocalAt(Scan(s, i), i)
  {
    assert Local(s.sessions[i], s.db);
    ScanRows(s.sessions[i], s.db.dishes);
    hide LockedSoFar, Buying;
  }

  lemma ScanStep(s: State, i: nat)
    requires Inv(s) && i < |s.sessions| && s.sessions[i].op.Checkout? && s.sessions[i].pc.Scanning?
    ensures Unseen(s, i, Scan(s, i))
  {
    var t := s.sessions[i];
    var found := WantOf(t).Keys * s.db.dishes.Keys;
    var t' := t.(pc := Locking(Ascending(found)), known := t.known + found);
    ScanLocal(s, i);
    assert Footprint(t') == Footprint(t);
    ControlStep(s, i, t');
  }

  // ---------- lock ----------

  function Elements(ids: seq<Id>): set<Id> {
    set x | x in ids
  }

  lemma {:induction false} AscendingSize(ids: seq<Id>)
    requires Ascends(ids)
    ensures |Elements(ids)| == |ids|
  {
    if ids != [] {
      var n := |ids| - 1;
      var front := ids[..n];
      AscendingSize(front);
      forall i | 0 <= i < n ensures front[i] != ids[n] {}
      assert ids == front + [ids[n]];
      assert Elements(ids) == Elements(front) + {ids[n]};
    }
  }

  lemma SubsetOfSize(a: set<Id>, b: set<Id>)
    requires a <= b && |a| == |b|
    ensures a == b
  {
    assert |b - a| == |b| - |a|;
  }

  /** Distinct lines and an equal row count leave no choice: the locked rows are the request. */
  lemma LockBijection(input: CheckoutInput, rows: seq<Fetched>)
    requires InputFault(input).None? && |rows| == |input.lines|
    requires Ascends(Ids(rows)) && forall x | x in Ids(rows) :: x in Wanted(input.lines)
    ensures Ids(rows) == Ascending(Wanted(input.lines).Keys)
    ensures RowsCovered(rows, Wanted(input.lines))
  {
    var want := Wanted(input.lines);
    var ids := Ids(rows);
    AscendingIs(want.Keys);
    assert |want| == |rows| by { WantedIsRequest(input.lines); }
    assert forall i :: 0 <= i < |rows| ==> ids[i] == rows[i].id && ids[i] in ids;
    AscendingSize(ids);
    SubsetOfSize(Elements(ids), want.Keys);
    forall x ensures x in ids <==> x in Ascending(want.Keys) {
      assert x in ids <==> x in Elements(ids);
    }
    AscendsUnique(ids, Ascending(want.Keys));
  }

  lemma AllLocked(t: Session, dishes: map<Id, Dish>)
    requires Buying(t) && t.before == map[] && LockedSoFar(t, [], dishes) && |t.rows| == |t.op.input.lines|
    ensures SoldSoFar(t.(pc := Selling(0, 0)), 0, dishes)
    ensures Wrap64(ExactTotal(Receipt(t.rows, WantOf(t))[..0])) == 0
  {
    assert Ids(t.rows) + [] == Ids(t.rows);
    LockBijection(t.op.input, t.rows);
  }

  lemma AllLockedLocal(s: State, i: nat)
    requires i < |s.sessions| && LocalAt(s, i) && s.sessions[i].op.Checkout? && s.sessions[i].pc == Locking([])
    requires |s.sessions[i].rows| == |s.sessions[i].op.input.lines|
    ensures LocalAt(Goto(s, i, Selling(0, 0)), i)
  {
    var t := s.sessions[i];
    assert Local(t, s.db);
    AllLocked(t, s.db.dishes);
    hide LockedSoFar, SoldSoFar, Buying, ExactTotal;
    assert Local(t.(pc := Selling(0, 0)), s.db);
  }

  lemma SkipRow(t: Session, todo: seq<Id>, dishes: map<Id, Dish>)
    requires t.op.Checkout? && todo != [] && LockedSoFar(t, todo, dishes) && todo[0] !in dishes
    ensures LockedSoFar(t.(pc := Locking(todo[1..])), todo[1..], dishes)
  {
    var a, b := Ids(t.rows) + todo, Ids(t.rows) + todo[1..];
    assert todo == [todo[0]] + todo[1..];
    forall j, k | 0 <= j < k < |b| ensures b[j] < b[k] {
      assert b[j] == a[if j < |t.rows| then j else j + 1];
      assert b[k] == a[if k < |t.rows| then k else k + 1];
    }
    assert forall x | x in b :: x in a;
  }

  lemma SkipLocal(s: State, i: nat)
    requires i < |s.sessions| && LocalAt(s, i) && s.sessions[i].op.Checkout? && s.sessions[i].pc.Locking?
    requires s.sessions[i].pc.todo != [] && s.sessions[i].pc.todo[0] !in s.db.dishes
    ensures LocalAt(Goto(s, i, Locking(s.sessions[i].pc.todo[1..])), i)
  {
    assert Local(s.sessions[i], s.db);
    SkipRow(s.sessions[i], s.sessions[i].pc.todo, s.db.dishes);
    hide LockedSoFar, Buying;
  }

  lemma LockRow(t: Session, todo: seq<Id>, dishes: map<Id, Dish>)
    requires t.op.Checkout? && todo != [] && LockedSoFar(t, todo, dishes) && todo[0] in dishes
    ensures var t' := t.(pc := Locking(todo[1..]), rows := t.rows + [Fetched(todo[0], dishes[todo[0]])]);
            && LockedSoFar(t', todo[1..], dishes)
            && DishRows(Ids(t'.rows)) == DishRows(Ids(t.rows)) + {DishRow(todo[0])}
  {
    var t' := t.(pc := Locking(todo[1..]), rows := t.rows + [Fetched(todo[0], dishes[todo[0]])]);
    assert Ids(t'.rows) == Ids(t.rows) + [todo[0]];
    assert Ids(t'.rows) + todo[1..] == Ids(t.rows) + todo;
  }

  lemma LockLocal(s: State, i: nat)
    requires i < |s.sessions| && LocalAt(s, i) && s.sessions[i].op.Checkout? && s.sessions[i].pc.Locking?
    requires s.sessions[i].pc.todo != [] && s.sessions[i].pc.todo[0] in s.db.dishes
    requires Free(s, DishRow(s.sessions[i].pc.todo[0]))
    ensures var s' := LockNext(s, i).value;
            && LocalAt(s', i)
            && Footprint(s'.sessions[i]) == Footprint(s.sessions[i]) + {DishRow(s.sessions[i].pc.todo[0])}
  {
    assert Local(s.sessions[i], s.db);
    LockRow(s.sessions[i], s.sessions[i].pc.todo, s.db.dishes);
    hide LockedSoFar, Buying, DishRows;
  }

  lemma LockRowStep(s: State, i: nat)
    requires Inv(s) && i < |s.sessions| && s.sessions[i].op.Checkout? && s.sessions[i].pc.Locking?
    requires s.sessions[i].pc.todo != [] && s.sessions[i].pc.todo[0] in s.db.dishes
    requires Free(s, DishRow(s.sessions[i].pc.todo[0]))
    ensures Unseen(s, i, LockNext(s, i).value)
  {
    var t := s.sessions[i];
    var s' := LockNext(s, i).value;
    LockLocal(s, i);
    assert Pending(s'.sessions[i]) == Pending(t);
    hide Local, WellFormed, Footprint, Visible, Pending;
    LockOne(s, i, s', DishRow(t.pc.todo[0]));
    SameTables(s, i, s');
    QuietSight(s, i, s');
    hide LocksOk, FreshOk, AllLocal, SameSight, LockStep, TableStep;
    WorkStep(s, i, s');
  }

  lemma LockNextStep(s: State, i: nat)
    requires Inv(s) && i < |s.sessions| && s.sessions[i].op.Checkout? && s.sessions[i].pc.Locking?
    requires LockNext(s, i).Some?
    ensures Unseen(s, i, LockNext(s, i).value)
  {
    var t := s.sessions[i];
    var todo := t.pc.todo;
    if todo == [] {
      if |t.rows| != |t.op.input.lines| {
        RejectStep(s, i, MenuItemNotFound);
      } else {
        AllLockedLocal(s, i);
        ControlStep(s, i, t.(pc := Selling(0, 0)));
      }
    } else if todo[0] !in s.db.dishes {
      SkipLocal(s, i);
      ControlStep(s, i, t.(pc := Locking(todo[1..])));
    } else {
      LockRowStep(s, i);
    }
  }

  // ---------- sell ----------

  /** While the locks are held, the guard inside DecrementStock repeats a check that has passed. */
  lemma GuardNeverFails(t: Session, line: nat, dishes: map<Id, Dish>)
    requires t.op.Checkout? && SoldSoFar(t, line, dishes) && line < |t.rows|
    requires LineFault(t.rows[line].dish, t.op.input.restaurant, WantOf(t)[t.rows[line].id]).None?
    ensures var row := t.rows[line];
            && row.id in WantOf(t) && row.id in dishes && dishes[row.id] == row.dish
            && dishes[row.id].stock >= WantOf(t)[row.id] && dishes[row.id].available
  {
  }

  lemma RowsDistinct(rows: seq<Fetched>, j: nat, k: nat)
    requires Ascends(Ids(rows)) && j < |rows| && k < |rows| && j != k
    ensures rows[j].id != rows[k].id
  {
    assert Ids(rows)[j] == rows[j].id && Ids(rows)[k] == rows[k].id;
  }

  lemma TotalStep(items: seq<OrderItem>, line: nat)
    requires line < |items|
    ensures Wrap64(ExactTotal(items[..line + 1])) ==
            Wrap64(Wrap64(ExactTotal(items[..line])) + Wrap64(items[line].price * items[line].qty))
  {
    assert items[..line + 1][..line] == items[..line];
    WrapAdd(ExactTotal(items[..line]), items[line].price * items[line].qty);
  }

  /** The session after one turn of the checkout loop. */
  function SoldOne(t: Session, line: nat, total: int, dishes: map<Id, Dish>): Session
    requires t.op.Checkout? && line < |t.rows| && t.rows[line].id in dishes && t.rows[line].id in WantOf(t)
  {
    var row := t.rows[line];
    t.(pc := Selling(line + 1, Wrap64(total + Wrap64(row.dish.price * WantOf(t)[row.id]))),
       before := t.before[row.id := dishes[row.id]])
  }

  function DishesSold(t: Session, line: nat, dishes: map<Id, Dish>): map<Id, Dish>
    requires t.op.Checkout? && line < |t.rows| && t.rows[line].id in dishes && t.rows[line].id in WantOf(t)
  {
    var id := t.rows[line].id;
    dishes[id := dishes[id].(stock := dishes[id].stock - WantOf(t)[id])]
  }

  lemma NotSoldYet(t: Session, line: nat)
    requires line < |t.rows| && Ascends(Ids(t.rows)) && t.before == Images(t.rows, line)
    ensures t.rows[line].id !in t.before
  {
    ImagesAre(t.rows, line);
    if t.rows[line].id in t.before {
      var k :| 0 <= k < line && Ids(t.rows[..line])[k] == t.rows[line].id;
      RowsDistinct(t.rows, k, line);
    }
  }

  lemma SellRow(t: Session, line: nat, total: int, dishes: map<Id, Dish>)
    requires t.op.Checkout? && SoldSoFar(t, line, dishes) && line < |t.rows|
    requires LineFault(t.rows[line].dish, t.op.input.restaurant, WantOf(t)[t.rows[line].id]).None?
    ensures SoldSoFar(SoldOne(t, line, total, dishes), line + 1, DishesSold(t, line, dishes))
    ensures t.rows[line].id !in t.before
  {
    assert Ascends(Ids(t.rows)) by { AscendingIs(WantOf(t).Keys); }
    NotSoldYet(t, line);
    var rows, want := t.rows, WantOf(t);
    var after := DishesSold(t, line, dishes);
    forall j | 0 <= j < |rows|
      ensures rows[j].id in after && after[rows[j].id] ==
              if j < line + 1 then rows[j].dish.(stock := rows[j].dish.stock - want[rows[j].id]) else rows[j].dish
    {
      if j != line {
        RowsDistinct(rows, j, line);
      }
    }
    var t' := SoldOne(t, line, total, dishes);
    assert t'.before == Images(rows, line + 1);
    assert t'.rows == rows && WantOf(t') == want && t'.op == t.op;
    assert forall j :: 0 <= j < line + 1 ==>
        LineFault(rows[j].dish, t.op.input.restaurant, want[rows[j].id]).None?;
    hide Ascending, Images, RowsCovered, WantOf, DishesSold, LineFault, SoldOne, Wrap64;
  }

  /** The loop turn keeps the session's locks and its pending order id. */
  lemma SoldOneShape(t: Session, line: nat, total: int, dishes: map<Id, Dish>)
    requires t.op.Checkout? && line < |t.rows| && t.rows[line].id in dishes && t.rows[line].id in WantOf(t)
    requires t.pc.Selling?
    ensures Footprint(SoldOne(t, line, total, dishes)) == Footprint(t)
    ensures Pending(SoldOne(t, line, total, dishes)) == Pending(t)
  {
  }

  lemma SellTotal(t: Session, line: nat, total: int, dishes: map<Id, Dish>)
    requires t.op.Checkout? && RowsCovered(t.rows, WantOf(t)) && line < |t.rows| && t.rows[line].id in dishes
    requires total == Wrap64(ExactTotal(Receipt(t.rows, WantOf(t))[..line]))
    ensures var t' := SoldOne(t, line, total, dishes);
            t'.pc.total == Wrap64(ExactTotal(Receipt(t'.rows, WantOf(t'))[..line + 1]))
  {
    TotalStep(Receipt(t.rows, WantOf(t)), line);
  }

  /** The session is in the checkout loop with a line left that passes its checks. */
  ghost predicate SellsNow(s: State, i: nat) {
    && i < |s.sessions| && s.sessions[i].op.Checkout? && s.sessions[i].pc.Selling?
    && s.sessions[i].pc.line < |s.sessions[i].rows|
    && RowsCovered(s.sessions[i].rows, WantOf(s.sessions[i]))
    && var row := s.sessions[i].rows[s.sessions[i].pc.line];
       LineFault(row.dish, s.sessions[i].op.input.restaurant, WantOf(s.sessions[i])[row.id]).None?
  }

  /** What a seller in the loop knows of its rows. */
  lemma SellerKnows(s: State, i: nat)
    requires SellsNow(s, i) && LocalAt(s, i)
    ensures var t := s.sessions[i];
            && SoldSoFar(t, t.pc.line, s.db.dishes) && Buying(t) && t.orderUndo == Untouched
            && t.pc.total == Wrap64(ExactTotal(Receipt(t.rows, WantOf(t))[..t.pc.line]))
            && DishRow(t.rows[t.pc.line].id) in Footprint(t)
  {
    var t := s.sessions[i];
    assert Local(t, s.db);
    assert t.rows[t.pc.line].id == Ids(t.rows)[t.pc.line];
  }

  /** The loop turn, its effect on this session and on the dish table. */
  lemma SellEffect(s: State, i: nat)
    requires SellsNow(s, i) && LocalAt(s, i)
    ensures var t := s.sessions[i];
            var line := t.pc.line;
            var s' := Sell(s, i);
            && t.rows[line].id in s.db.dishes && t.rows[line].id !in t.before
            && s'.sessions == s.sessions[i := SoldOne(t, line, t.pc.total, s.db.dishes)]
            && s'.db == s.db.(dishes := DishesSold(t, line, s.db.dishes))
            && s'.locks == s.locks && s'.log == s.log
  {
    var t := s.sessions[i];
    SellerKnows(s, i);
    GuardNeverFails(t, t.pc.line, s.db.dishes);
    assert Ascends(Ids(t.rows)) by { AscendingIs(WantOf(t).Keys); }
    NotSoldYet(t, t.pc.line);
    assert t.rows[t.pc.line].id in WantOf(t);
    hide SoldSoFar, Footprint, LocalAt, Receipt, ExactTotal, Images, Wrap64, RowsCovered, Buying, EntryFault;
  }

  lemma SellerOk(t: Session, db: Db)
    requires Buying(t) && t.pc.Selling? && t.orderUndo == Untouched && SoldSoFar(t, t.pc.line, db.dishes)
    requires t.pc.total == Wrap64(ExactTotal(Receipt(t.rows, WantOf(t))[..t.pc.line]))
    ensures Local(t, db)
  {
  }

  /** The session after the loop turn, against the dish table after it. */
  lemma SoldOneOk(t: Session, db: Db)
    requires Buying(t) && t.pc.Selling? && t.orderUndo == Untouched && SoldSoFar(t, t.pc.line, db.dishes)
    requires t.pc.total == Wrap64(ExactTotal(Receipt(t.rows, WantOf(t))[..t.pc.line]))
    requires t.pc.line < |t.rows|
    requires LineFault(t.rows[t.pc.line].dish, t.op.input.restaurant, WantOf(t)[t.rows[t.pc.line].id]).None?
    ensures Local(SoldOne(t, t.pc.line, t.pc.total, db.dishes),
                  db.(dishes := DishesSold(t, t.pc.line, db.dishes)))
  {
    var line := t.pc.line;
    assert t.rows[line].id in db.dishes && t.rows[line].id in WantOf(t);
    SellTotal(t, line, t.pc.total, db.dishes);
    SellRow(t, line, t.pc.total, db.dishes);
    hide SoldSoFar, DishesSold, Receipt, ExactTotal, LineFault, Images, Ascending, Wrap64, RowsCovered;
    SellerOk(SoldOne(t, line, t.pc.total, db.dishes), db.(dishes := DishesSold(t, line, db.dishes)));
  }

  lemma SellLocal(s: State, i: nat)
    requires SellsNow(s, i) && LocalAt(s, i)
    ensures LocalAt(Sell(s, i), i)
  {
    SellerKnows(s, i);
    SoldOneOk(s.sessions[i], s.db);
    SellEffect(s, i);
    hide SoldSoFar, Sell, SellsNow, LineFault, Footprint, Local;
  }

  lemma SellSight(s: State, i: nat)
    requires SellsNow(s, i) && LocalAt(s, i)
    ensures SameSight(s, i, Sell(s, i))
  {
    SellEffect(s, i);
    var t := s.sessions[i];
    var s' := Sell(s, i);
    var d := t.rows[t.pc.line].id;
    hide Sell, LocalAt, SoldSoFar, Footprint, SellsNow, LineFault;
    DishWriteSight(s, i, s', d, s'.db.dishes[d]);
  }

  lemma SellStep(s: State, i: nat)
    requires Inv(s) && i < |s.sessions| && s.sessions[i].op.Checkout? && s.sessions[i].pc.Selling?
    requires s.sessions[i].pc.line < |s.sessions[i].rows|
    ensures Unseen(s, i, Sell(s, i))
  {
    var t := s.sessions[i];
    var row := t.rows[t.pc.line];
    assert Local(t, s.db);
    var fault := LineFault(row.dish, t.op.input.restaurant, WantOf(t)[row.id]);
    if fault.Some? {
      RejectStep(s, i, fault.value);
    } else {
      var s' := Sell(s, i);
      SellEffect(s, i);
      SellLocal(s, i);
      SellSight(s, i);
      SellParts(s, i);
      hide LocksOk, FreshOk, AllLocal, SameSight, LockStep, TableStep, Sell, SoldSoFar, Local, Footprint;
      WorkStep(s, i, s');
    }
  }

  lemma SellParts(s: State, i: nat)
    requires Inv(s) && SellsNow(s, i)
    ensures LockStep(s, i, Sell(s, i)) && TableStep(s, i, Sell(s, i))
  {
    var t := s.sessions[i];
    var s' := Sell(s, i);
    SellerKnows(s, i);
    SellEffect(s, i);
    SoldOneShape(t, t.pc.line, t.pc.total, s.db.dishes);
    var d := t.rows[t.pc.line].id;
    hide Sell, SoldSoFar, Footprint, Local, Pending, SellsNow;
    SameLocks(s, i, s');
    DishWrite(s, i, s', d, s'.db.dishes[d]);
  }

  // ---------- insert ----------

  /** All lines are sold and the order has not been written yet. */
  ghost predicate Insertable(t: Session, db: Db) {
    && Buying(t) && t.pc.Selling? && t.pc.line == |t.rows| && t.orderUndo == Untouched
    && SoldSoFar(t, |t.rows|, db.dishes)
    && t.pc.total == Wrap64(ExactTotal(ReceiptSoFar(t)))
  }

  lemma SellerDone(s: State, i: nat)
    requires i < |s.sessions| && LocalAt(s, i) && s.sessions[i].op.Checkout? && s.sessions[i].pc.Selling?
    requires s.sessions[i].pc.line >= |s.sessions[i].rows|
    ensures Insertable(s.sessions[i], s.db)
  {
    var t := s.sessions[i];
    assert Local(t, s.db);
    assert Receipt(t.rows, WantOf(t))[..|t.rows|] == Receipt(t.rows, WantOf(t));
  }

  lemma InsertedOk(t: Session, db: Db)
    requires Insertable(t, db) && t.pc.total >= 0
    ensures var order := NewOrder(t.op.input, ReceiptSoFar(t), t.pc.total);
            var t' := t.(pc := Closing, orderUndo := Inserted);
            && Local(t', db.(orders := db.orders[t.op.orderId := order]))
            && Footprint(t') == Footprint(t) + {OrderRow(t.op.orderId)}
  {
    var t' := t.(pc := Closing, orderUndo := Inserted);
    assert RowsCovered(t.rows, WantOf(t)) && t'.rows == t.rows && WantOf(t') == WantOf(t);
    assert SoldSoFar(t', |t'.rows|, db.dishes) && Buying(t');
    hide SoldSoFar, Buying, ExactTotal, Wrap64, Receipt, WantOf, RowsCovered;
  }

  /** Nobody holds the row of an order that does not exist yet. */
  lemma PendingRowFree(s: State, i: nat, o: Id)
    requires LocksOk(s) && AllLocal(s) && FreshOk(s) && i < |s.sessions| && o in Pending(s.sessions[i])
    ensures Free(s, OrderRow(o)) && o !in s.db.orders
  {
    HeldRows(s);
    assert OrderRow(o) in s.locks ==> RowKept(s.db, s.db, OrderRow(o));
    assert Unused(s.db, o);
  }

  lemma InsertSight(s: State, i: nat)
    requires i < |s.sessions| && s.sessions[i].op.Checkout? && Insertable(s.sessions[i], s.db)
    requires s.sessions[i].pc.total >= 0 && s.sessions[i].op.orderId !in s.db.orders
    ensures SameSight(s, i, Insert(s, i))
  {
    hide SoldSoFar, Buying, ReceiptSoFar, ExactTotal, Wrap64;
  }

  lemma InsertStep(s: State, i: nat)
    requires Inv(s) && i < |s.sessions| && s.sessions[i].op.Checkout? && s.sessions[i].pc.Selling?
    requires s.sessions[i].pc.line >= |s.sessions[i].rows|
    ensures Unseen(s, i, Insert(s, i))
  {
    var t := s.sessions[i];
    var id := t.op.orderId;
    SellerDone(s, i);
    PendingRowFree(s, i, id);
    if t.pc.total < 0 {
      RejectStep(s, i, InvalidInput);
    } else {
      InsertedOk(t, s.db);
      InsertSight(s, i);
      var s' := Insert(s, i);
      assert Pending(s'.sessions[i]) == {} && id in Pending(t);
      hide Local, Footprint, Pending, Insertable, ReceiptSoFar;
      LockOne(s, i, s', OrderRow(id));
      OrderWrite(s, i, s', id, NewOrder(t.op.input, ReceiptSoFar(t), t.pc.total));
      hide LocksOk, FreshOk, AllLocal, SameSight, LockStep, TableStep;
      WorkStep(s, i, s');
    }
  }

  // ---------- commit ----------

  /** What a checkout about to commit knows. */
  lemma CloserKnows(s: State, i: nat)
    requires i < |s.sessions| && LocalAt(s, i) && s.sessions[i].op.Checkout? && s.sessions[i].pc.Closing?
    ensures var t := s.sessions[i];
            && Buying(t) && t.orderUndo == Inserted && SoldSoFar(t, |t.rows|, s.db.dishes)
            && var items := Receipt(t.rows, WantOf(t));
               var total := Wrap64(ExactTotal(items));
               total >= 0 && OrderRowIs(t, s.db.orders, NewOrder(t.op.input, items, total))
  {
    assert Local(s.sessions[i], s.db);
  }

  /** The undo log covers exactly the wanted dishes, at the versions the checkout read. */
  lemma ImagesOfRequest(rows: seq<Fetched>, want: map<Id, int>)
    requires Ids(rows) == Ascending(want.Keys)
    ensures Images(rows, |rows|).Keys == want.Keys
    ensures forall j :: 0 <= j < |rows| ==> rows[j].id in want && Images(rows, |rows|)[rows[j].id] == rows[j].dish
  {
    AscendingIs(want.Keys);
    ImagesAre(rows, |rows|);
    assert rows[..|rows|] == rows;
    forall d ensures d in Images(rows, |rows|) <==> d in want {
      if d in want {
        assert d in Ids(rows);
        var j :| 0 <= j < |rows| && Ids(rows)[j] == d;
        assert rows[j].id == d;
      }
    }
  }

  /** A row the checkout has locked is in its footprint, and its undo log has it as it was read. */
  lemma CloserRow(s: State, i: nat, j: nat)
    requires LocalAt(s, i) && i < |s.sessions| && s.sessions[i].op.Checkout? && s.sessions[i].pc.Closing?
    requires j < |s.sessions[i].rows|
    ensures var t, row := s.sessions[i], s.sessions[i].rows[j];
            && row.id in s.db.dishes && row.id in t.before && t.before[row.id] == row.dish
            && DishRow(row.id) in Footprint(t)
  {
    var t := s.sessions[i];
    CloserKnows(s, i);
    ImagesOfRequest(t.rows, WantOf(t));
    assert Ids(t.rows)[j] == t.rows[j].id;
    hide LocalAt, Buying, Images, Ascending, Receipt, ExactTotal, WantOf;
  }

  lemma RowVisible(s: State, i: nat, j: nat)
    requires LocksOk(s) && LocalAt(s, i) && i < |s.sessions|
    requires s.sessions[i].op.Checkout? && s.sessions[i].pc.Closing?
    requires j < |s.sessions[i].rows|
    ensures var row := s.sessions[i].rows[j];
            row.id in s.db.dishes && DishImage(s, row.id) == row.dish
  {
    CloserRow(s, i, j);
    assert s.locks[DishRow(s.sessions[i].rows[j].id)] == i;
    hide LocksOk, LocalAt, Footprint;
  }

  /** The row versions others still see are the ones the checkout read under its locks. */
  lemma RowsStillVisible(s: State, i: nat)
    requires LocksOk(s) && LocalAt(s, i) && i < |s.sessions|
    requires s.sessions[i].op.Checkout? && s.sessions[i].pc.Closing?
    ensures RowsCurrent(Visible(s).dishes, s.sessions[i].rows, WantOf(s.sessions[i]))
  {
    var t := s.sessions[i];
    CloserKnows(s, i);
    forall j | 0 <= j < |t.rows|
      ensures t.rows[j].id in s.db.dishes && DishImage(s, t.rows[j].id) == t.rows[j].dish
    {
      RowVisible(s, i, j);
    }
    assert RowsCovered(t.rows, WantOf(t)) && Ids(t.rows) == Ascending(WantOf(t).Keys);
    hide SoldSoFar, Local, LocksOk, DishImage, WantOf;
  }

  /** A wanted dish: others see the version that was read, the table holds it less the quantity. */
  lemma SoldRow(s: State, i: nat, d: Id)
    requires LocksOk(s) && LocalAt(s, i) && i < |s.sessions|
    requires s.sessions[i].op.Checkout? && s.sessions[i].pc.Closing? && d in WantOf(s.sessions[i])
    ensures var t := s.sessions[i];
            && d in s.db.dishes && d in t.before
            && s.db.dishes[d] == DishImage(s, d).(stock := DishImage(s, d).stock - WantOf(t)[d])
  {
    var t := s.sessions[i];
    CloserKnows(s, i);
    ImagesOfRequest(t.rows, WantOf(t));
    assert d in Ids(t.rows) by { AscendingIs(WantOf(t).Keys); }
    var j :| 0 <= j < |t.rows| && Ids(t.rows)[j] == d;
    assert t.rows[j].id == d;
    RowVisible(s, i, j);
    hide DishImage, LocalAt, Ascending, Images, Buying, Receipt, ExactTotal, LocksOk;
  }

  /** The receipt asks for the wanted quantities, and the undo log covers the wanted dishes. */
  lemma CloserReceipt(s: State, i: nat, d: Id)
    requires LocalAt(s, i) && i < |s.sessions| && s.sessions[i].op.Checkout? && s.sessions[i].pc.Closing?
    ensures var t := s.sessions[i];
            && RowsCovered(t.rows, WantOf(t)) && t.before.Keys == WantOf(t).Keys
            && QtyOf(Receipt(t.rows, WantOf(t)), d) == if d in WantOf(t) then WantOf(t)[d] else 0
  {
    var t := s.sessions[i];
    CloserKnows(s, i);
    ImagesOfRequest(t.rows, WantOf(t));
    ReceiptQty(t.rows, WantOf(t), d);
    hide QtyOf, LocalAt, Ascending, Receipt, Images, Buying, WantOf, RowsCovered;
  }

  lemma SoldDish(s: State, i: nat, d: Id)
    requires LocksOk(s) && LocalAt(s, i) && i < |s.sessions|
    requires s.sessions[i].op.Checkout? && s.sessions[i].pc.Closing? && d in s.db.dishes
    ensures var t := s.sessions[i];
            && RowsCovered(t.rows, WantOf(t))
            && DishesAfter(s, i)[d] == Restock(Visible(s).dishes, Receipt(t.rows, WantOf(t)), false)[d]
  {
    CloserReceipt(s, i, d);
    if d in WantOf(s.sessions[i]) {
      SoldRow(s, i, d);
    }
    hide QtyOf, DishImage, LocalAt, LocksOk, Receipt, WantOf, RowsCovered;
  }

  lemma SoldDishes(s: State, i: nat)
    requires LocksOk(s) && LocalAt(s, i) && i < |s.sessions|
    requires s.sessions[i].op.Checkout? && s.sessions[i].pc.Closing?
    ensures var t := s.sessions[i];
            && RowsCovered(t.rows, WantOf(t))
            && DishesAfter(s, i) == Restock(Visible(s).dishes, Receipt(t.rows, WantOf(t)), false)
  {
    var t := s.sessions[i];
    assert RowsCovered(t.rows, WantOf(t)) by { CloserKnows(s, i); }
    var a, b := DishesAfter(s, i), Restock(Visible(s).dishes, Receipt(t.rows, WantOf(t)), false);
    assert a.Keys == s.db.dishes.Keys == b.Keys;
    forall d | d in s.db.dishes ensures a[d] == b[d] {
      SoldDish(s, i, d);
    }
    hide DishesAfter, Restock, Visible, Local, LocksOk, Receipt;
  }

  lemma SaleIs(db: Db, input: CheckoutInput, orderId: Id, rows: seq<Fetched>, want: map<Id, int>)
    requires RowsCovered(rows, want) && orderId !in db.orders && Wrap64(ExactTotal(Receipt(rows, want))) >= 0
    requires forall j :: 0 <= j < |rows| ==> LineFault(rows[j].dish, input.restaurant, want[rows[j].id]).None?
    ensures var items := Receipt(rows, want);
            Sale(db, input, orderId, rows, want)
            == Ok(Db(db.categories, Restock(db.dishes, items, false),
                     db.orders[orderId := NewOrder(input, items, Wrap64(ExactTotal(items)))]))
  {
    LinesFaultNone(rows, input.restaurant, want);
    hide LinesFault, Restock, ExactTotal, Wrap64, Receipt;
  }

  /** The order being inserted is the only change to the order table others will see. */
  lemma OrderPublished(s: State, i: nat)
    requires LocksOk(s) && LocalAt(s, i) && i < |s.sessions|
    requires s.sessions[i].op.Checkout? && s.sessions[i].pc.Closing?
    ensures var t := s.sessions[i];
            && t.op.orderId in s.db.orders && t.op.orderId !in Visible(s).orders
            && OrdersAfter(s, i) == Visible(s).orders[t.op.orderId := s.db.orders[t.op.orderId]]
  {
    var t := s.sessions[i];
    CloserKnows(s, i);
    assert t.orderUndo == Inserted && t.op.orderId in s.db.orders;
    assert OrderRow(t.op.orderId) in Footprint(t);
    assert s.locks[OrderRow(t.op.orderId)] == i;
    assert Invisible(s, t.op.orderId);
    assert t.op.orderId !in Visible(s).orders by { hide LocksOk, LocalAt, SoldSoFar, Receipt, Footprint, Invisible; }
    hide SoldSoFar, LocksOk, Local, LocalAt, Footprint, Receipt, ExactTotal, Wrap64, Visible, Invisible, Buying;
  }

  lemma SaleAgrees(s: State, i: nat)
    requires LocksOk(s) && AllLocal(s) && i < |s.sessions|
    requires s.sessions[i].op.Checkout? && s.sessions[i].pc.Closing?
    ensures var t := s.sessions[i];
            && RowsCovered(t.rows, WantOf(t))
            && Sale(Visible(s), t.op.input, t.op.orderId, t.rows, WantOf(t)) == Ok(Visible(Commit(s, i)))
  {
    var t := s.sessions[i];
    var want := WantOf(t);
    assert LocalAt(s, i);
    CloserKnows(s, i);
    assert RowsCovered(t.rows, want) && forall j :: 0 <= j < |t.rows| ==>
        LineFault(t.rows[j].dish, t.op.input.restaurant, want[t.rows[j].id]).None?;
    OrderPublished(s, i);
    assert OrdersAfter(s, i) == Visible(s).orders[t.op.orderId :=
        NewOrder(t.op.input, Receipt(t.rows, want), Wrap64(ExactTotal(Receipt(t.rows, want))))];
    assert Visible(s).categories == s.db.categories;
    hide *;
    CommitVisible(s, i);
    SoldDishes(s, i);
    SaleIs(Visible(s), t.op.input, t.op.orderId, t.rows, want);
  }

  /** Committing a checkout is the sequential checkout, run on what everybody sees at that moment. */
  lemma CheckoutCommits(s: State, i: nat)
    requires LocksOk(s) && AllLocal(s) && i < |s.sessions|
    requires s.sessions[i].op.Checkout? && s.sessions[i].pc.Closing?
    ensures Apply(Visible(s), s.sessions[i].op) == Ok(Visible(Commit(s, i)))
  {
    var t := s.sessions[i];
    SaleAgrees(s, i);
    RowsStillVisible(s, i);
    assert Buying(t) by { CloserKnows(s, i); }
    assert EntryFault(t.op.input, t.op.sample).None? && WantOf(t) == Wanted(t.op.input.lines);
    hide *;
    CheckoutIsSale(Visible(s), t.op, t.rows);
  }
}
