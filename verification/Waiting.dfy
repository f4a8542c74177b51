/** Who waits for whom. Order rows come first and dish rows by ascending id, for checkouts and refunds
    alike; partner calls fit into one order with them unless the mix of calls is tangled. */
module Waiting {
  import opened Domain
  import opened Spec
  import opened Tables
  import opened Engine
  import opened EngineInvariant
  import opened EngineVisibility
  import opened EngineBuyer
  import opened EngineMover
  import opened EngineMenu
  import opened Serialisability
  import opened Progress

  // ---------- waiting ----------

  ghost predicate CanStep(s: State, i: nat) {
    i < |s.sessions| && Advance(s, i).Some?
  }

  /** The next statement of session i has to wait because somebody holds row r. */
  ghost predicate Blocks(s: State, i: nat, r: Row)
    requires i < |s.sessions|
  {
    var t := s.sessions[i];
    && r in s.locks
    && if t.op.Checkout? then
         t.pc.Locking? && t.pc.todo != [] && t.pc.todo[0] in s.db.dishes && r == DishRow(t.pc.todo[0])
       else if t.op.IsOrderOp() then
         if t.pc.Start? then
           && Nonzero(t.op) && OrderIdOf(t.op) in s.db.orders && !Invisible(s, OrderIdOf(t.op))
           && r == OrderRow(OrderIdOf(t.op))
         else t.pc.Refunding? && t.order.Some? && t.pc.line < |t.order.value.items|
              && t.order.value.items[t.pc.line].dish in s.db.dishes
              && r == DishRow(t.order.value.items[t.pc.line].dish)
       else
         || (t.pc.Writing? && Target(t.op) == Some(r))
         || ((t.pc.Checking? || (t.pc.Writing? && (Target(t.op).Some? ==> !ChecksLater(s.db, t.op))))
             && r in CheckedRows(s.db, t.op) && Bars(s, i, r))
  }

  lemma BuyerBlocked(s: State, i: nat)
    requires i < |s.sessions| && s.sessions[i].op.Checkout? && LocalAt(s, i)
    requires !s.sessions[i].Over() && AdvanceCheckout(s, i).None?
    ensures exists r :: Blocks(s, i, r)
  {
    var t := s.sessions[i];
    assert Local(t, s.db);
    assert Blocks(s, i, DishRow(t.pc.todo[0]));
  }

  lemma MoverBlocked(s: State, i: nat)
    requires Mover(s, i) && LocalAt(s, i) && !s.sessions[i].Over() && AdvanceMove(s, i).None?
    ensures exists r :: Blocks(s, i, r)
  {
    var t := s.sessions[i];
    assert Local(t, s.db);
    if t.pc.Start? {
      assert Blocks(s, i, OrderRow(OrderIdOf(t.op)));
    } else {
      assert Blocks(s, i, DishRow(t.order.value.items[t.pc.line].dish));
    }
  }

  lemma PartnerBlocked(s: State, i: nat)
    requires Partner(s, i) && LocalAt(s, i) && !s.sessions[i].Over() && AdvanceMenu(s, i).None?
    ensures exists r :: Blocks(s, i, r)
  {
    var t := s.sessions[i];
    assert Local(t, s.db);
    if t.pc.Writing? && Target(t.op).Some? && !Free(s, Target(t.op).value) {
      assert Blocks(s, i, Target(t.op).value);
    } else {
      assert Barred(s, i);
      var r :| r in CheckedRows(s.db, t.op) && Bars(s, i, r);
      assert Blocks(s, i, r);
    }
  }

  /** A call that cannot step is kept waiting by a row. */
  lemma BlockedBlocks(s: State, i: nat)
    requires LocalAt(s, i) && i < |s.sessions| && !s.sessions[i].Over() && Advance(s, i).None?
    ensures exists r :: Blocks(s, i, r)
  {
    if s.sessions[i].op.Checkout? {
      BuyerBlocked(s, i);
    } else if s.sessions[i].op.IsOrderOp() {
      MoverBlocked(s, i);
    } else {
      PartnerBlocked(s, i);
    }
  }

  // ---------- lock orders ----------

  /** An order of rows: orders first; then either the dishes by id and the categories, or the other way
      round; among the categories the renamed ones first. */
  datatype RowOrder = RowOrder(categoriesFirst: bool, renamed: set<Id>)

  function Class(k: RowOrder, r: Row): nat {
    match r
    case OrderRow(_) => 0
    case DishRow(_) => if k.categoriesFirst then 3 else 1
    case CategoryRow(c) => (if c in k.renamed then 1 else 2) + (if k.categoriesFirst then 0 else 1)
  }

  predicate Before(k: RowOrder, a: Row, b: Row) {
    Class(k, a) < Class(k, b) || (a.DishRow? && b.DishRow? && a.id < b.id)
  }

  /** Session i waits for rows after all the rows it holds. */
  ghost predicate WaitsUp(k: RowOrder, s: State, i: nat, r: Row)
    requires i < |s.sessions|
  {
    forall h | h in Footprint(s.sessions[i]) :: Before(k, h, r)
  }

  lemma BuyerWaitsUp(k: RowOrder, s: State, i: nat, r: Row)
    requires LocalAt(s, i) && i < |s.sessions| && s.sessions[i].op.Checkout? && Blocks(s, i, r)
    ensures WaitsUp(k, s, i, r)
  {
    var t := s.sessions[i];
    assert LockedSoFar(t, t.pc.todo, s.db.dishes) by { assert Local(t, s.db); }
    forall h | h in Footprint(t) ensures Before(k, h, r) {
      var d :| d in Ids(t.rows) && h == DishRow(d);
      var n :| 0 <= n < |Ids(t.rows)| && Ids(t.rows)[n] == d;
      var all := Ids(t.rows) + t.pc.todo;
      assert all[n] == d && all[|t.rows|] == t.pc.todo[0];
    }
  }

  lemma MoverWaitsUp(k: RowOrder, s: State, i: nat, r: Row)
    requires LocalAt(s, i) && Mover(s, i) && Blocks(s, i, r)
    ensures WaitsUp(k, s, i, r)
  {
    var t := s.sessions[i];
    assert Local(t, s.db);
    if t.pc.Refunding? {
      var items := t.order.value.items;
      var line := t.pc.line;
      forall h | h in Footprint(t) ensures Before(k, h, r) {
        if h.DishRow? {
          assert h.id in RefundedDishes(items, line);
          var n :| 0 <= n < line && RefundedDishes(items, line)[n] == h.id;
          assert DishesOf(items)[n] == h.id && DishesOf(items)[line] == items[line].dish;
        }
      }
    }
  }

  // ---------- which calls can get in each other's way ----------

  predicate Refiles(op: Op) {
    op.EditItem? && op.patch.category.Some?
  }

  predicate BuysMany(op: Op) {
    op.Checkout? && |op.input.lines| >= 2
  }

  /** Two renames can want each other's names. A checkout of several dishes, a dish on its way into
      another category and the deletion of a category can wait for each other in a ring. */
  ghost predicate Tangled(ops: seq<Op>) {
    || (exists i, j :: 0 <= i < j < |ops| && ops[i].RenameCategory? && ops[j].RenameCategory?)
    || ((exists i :: 0 <= i < |ops| && BuysMany(ops[i]))
        && (exists i :: 0 <= i < |ops| && Refiles(ops[i]))
        && (exists i :: 0 <= i < |ops| && ops[i].DropCategory?))
  }

  ghost predicate Serves(ops: seq<Op>, s: State) {
    |s.sessions| == |ops| && forall i :: 0 <= i < |ops| ==> s.sessions[i].op == ops[i]
  }

  /** The lock order that a mix of calls follows, if it is not tangled. */
  ghost function OrderOf(ops: seq<Op>): RowOrder {
    RowOrder(!(exists i :: 0 <= i < |ops| && Refiles(ops[i])),
              set i | 0 <= i < |ops| && ops[i].RenameCategory? :: ops[i].category)
  }

  /** The one wait against the order: a deletion that waits for a checkout. */
  ghost predicate DropsBehind(s: State, i: nat, r: Row)
    requires i < |s.sessions|
  {
    s.sessions[i].op.DropCategory? && s.sessions[i].pc.Checking? && r.DishRow?
  }

  lemma PartnerWaitsUp(ops: seq<Op>, s: State, i: nat, r: Row)
    requires Serves(ops, s) && !Tangled(ops) && LocalAt(s, i) && Partner(s, i) && Blocks(s, i, r)
    ensures WaitsUp(OrderOf(ops), s, i, r) || (!OrderOf(ops).categoriesFirst && DropsBehind(s, i, r))
  {
    var t := s.sessions[i];
    assert t.op == ops[i];
    assert Local(t, s.db);
    if t.pc.Checking? && t.op.RenameCategory? {
      assert r.id != t.op.category && t.op.category in OrderOf(ops).renamed;
      OneRename(ops, i, r.id);
    }
    hide Vetted, LocalAt, NameOwners;
  }

  /** With at most one rename, only its category counts as renamed. */
  lemma OneRename(ops: seq<Op>, i: nat, c: Id)
    requires !Tangled(ops) && i < |ops| && ops[i].RenameCategory? && c != ops[i].category
    ensures c !in OrderOf(ops).renamed
  {
    forall j | 0 <= j < |ops| && ops[j].RenameCategory? ensures j == i {
      assert i < j || j < i || i == j;
    }
  }

  lemma AllWaitUp(ops: seq<Op>, s: State, i: nat, r: Row)
    requires Serves(ops, s) && !Tangled(ops) && LocalAt(s, i) && i < |s.sessions| && Blocks(s, i, r)
    ensures WaitsUp(OrderOf(ops), s, i, r) || (!OrderOf(ops).categoriesFirst && DropsBehind(s, i, r))
  {
    if s.sessions[i].op.Checkout? {
      BuyerWaitsUp(OrderOf(ops), s, i, r);
    } else if s.sessions[i].op.IsOrderOp() {
      MoverWaitsUp(OrderOf(ops), s, i, r);
    } else {
      PartnerWaitsUp(ops, s, i, r);
    }
  }

  /** A checkout of one dish that holds it has nothing left to wait for. */
  lemma SmallCheckoutSteps(s: State, i: nat, d: Id)
    requires LocalAt(s, i) && i < |s.sessions| && s.sessions[i].op.Checkout? && |s.sessions[i].op.input.lines| <= 1
    requires DishRow(d) in Footprint(s.sessions[i])
    ensures CanStep(s, i)
  {
    var t := s.sessions[i];
    assert d in Ids(t.rows);
    if t.pc.Locking? {
      assert LockedSoFar(t, t.pc.todo, s.db.dishes) by { assert Local(t, s.db); }
      RowsWithin(t, t.pc.todo, s.db.dishes);
      assert |Ids(t.rows)| == |t.rows| && t.rows != [];
    }
  }

  /** The deletion waits for a checkout; in a mix that is not tangled that checkout can step. */
  lemma DropStops(ops: seq<Op>, s: State, i: nat, r: Row)
    requires Serves(ops, s) && !Tangled(ops) && LocksOk(s) && AllLocal(s) && i < |s.sessions| && Blocks(s, i, r)
    requires !OrderOf(ops).categoriesFirst && DropsBehind(s, i, r)
    ensures CanStep(s, s.locks[r])
  {
    var j := s.locks[r];
    assert s.sessions[i].op == ops[i] && s.sessions[j].op == ops[j];
    assert Bars(s, i, r) && s.sessions[j].op.Checkout?;
    assert !BuysMany(ops[j]);
    assert LocalAt(s, j) && r in Footprint(s.sessions[j]);
    SmallCheckoutSteps(s, j, r.id);
  }

  // ---------- following the waits ----------

  function Above(s: State, k: RowOrder, r: Row): set<Row> {
    set x | x in s.locks && Before(k, r, x)
  }

  lemma AboveShrinks(s: State, k: RowOrder, r: Row, next: Row)
    requires Before(k, r, next) && next in s.locks
    ensures |Above(s, k, next)| < |Above(s, k, r)|
  {
    var a, b := Above(s, k, next), Above(s, k, r);
    assert next in b && next !in a && a <= b;
    assert |b| == |b - a| + |a|;
  }

  /** Follow the wait from a held row to its holder, to the row it waits for, and so on: the rows only
      rise in the lock order, so somebody on the way can step. */
  lemma {:induction false} ChaseHolder(ops: seq<Op>, s: State, r: Row)
    requires Inv(s) && Serves(ops, s) && !Tangled(ops) && r in s.locks
    ensures exists j :: CanStep(s, j)
    decreases |Above(s, OrderOf(ops), r)|
  {
    var j := s.locks[r];
    assert r in Footprint(s.sessions[j]) && !s.sessions[j].Over() && LocalAt(s, j);
    if Advance(s, j).Some? {
      assert CanStep(s, j);
    } else {
      hide LocksOk, AllLocal, FreshOk, WellFormed, Visible, Local, LocalAt, Footprint, Advance, Blocks, OrderOf, Before,
        DropsBehind, CanStep;
      BlockedBlocks(s, j);
      var next :| Blocks(s, j, next);
      assert next in s.locks by { BlockIsHeld(s, j, next); }
      AllWaitUp(ops, s, j, next);
      if WaitsUp(OrderOf(ops), s, j, next) {
        AboveShrinks(s, OrderOf(ops), r, next);
        ChaseHolder(ops, s, next);
      } else {
        DropStops(ops, s, j, next);
      }
    }
  }

  lemma BlockIsHeld(s: State, i: nat, r: Row)
    requires i < |s.sessions| && Blocks(s, i, r)
    ensures r in s.locks
  {
  }

  /** Deadlock freedom: in every reachable state of a mix that is not tangled some call can take its next
      step, unless all are over. Interrupts are not needed to break a wait. */
  lemma DeadlockFree(db: Db, ops: seq<Op>, run: seq<State>)
    requires Admissible(db, ops) && !Tangled(ops) && IsRun(db, ops, run)
    ensures var s := run[|run| - 1];
            Quiet(s) || exists i :: CanStep(s, i)
  {
    assert run != [];
    RunGood(db, ops, run);
    var s := run[|run| - 1];
    assert Serves(ops, s);
    if !Quiet(s) {
      var i :| 0 <= i < |s.sessions| && !s.sessions[i].Over();
      if Advance(s, i).Some? {
        assert CanStep(s, i);
      } else {
        assert LocalAt(s, i);
        BlockedBlocks(s, i);
        var r :| Blocks(s, i, r);
        ChaseHolder(ops, s, r);
      }
    }
  }

  // ---------- rings ----------

  /** Calls that wait for each other: each of them for a row that one of them holds. */
  ghost predicate Ring(s: State, members: set<nat>) {
    && members != {}
    && forall i | i in members :: i < |s.sessions| && RingWait(s, i, members)
  }

  ghost predicate RingWait(s: State, i: nat, members: set<nat>)
    requires i < |s.sessions|
  {
    exists r :: Blocks(s, i, r) && r in s.locks && s.locks[r] in members
  }

  lemma {:induction false} ChaseRing(ops: seq<Op>, s: State, members: set<nat>, r: Row)
    requires Inv(s) && Serves(ops, s) && !Tangled(ops) && Ring(s, members)
    requires r in s.locks && s.locks[r] in members
    ensures exists j :: j in members && CanStep(s, j)
    decreases |Above(s, OrderOf(ops), r)|
  {
    var j := s.locks[r];
    assert r in Footprint(s.sessions[j]) && LocalAt(s, j) && RingWait(s, j, members);
    var next :| Blocks(s, j, next) && next in s.locks && s.locks[next] in members;
    hide LocksOk, AllLocal, FreshOk, WellFormed, Visible, Local, LocalAt, Footprint, Advance, Blocks, OrderOf, Before,
      DropsBehind, CanStep, RingWait;
    AllWaitUp(ops, s, j, next);
    if WaitsUp(OrderOf(ops), s, j, next) {
      AboveShrinks(s, OrderOf(ops), r, next);
      ChaseRing(ops, s, members, next);
    } else {
      DropStops(ops, s, j, next);
    }
  }

  /** A row that blocks a call keeps it from stepping. */
  lemma BlockedCannotStep(s: State, i: nat, r: Row)
    requires i < |s.sessions| && Blocks(s, i, r)
    ensures !CanStep(s, i)
  {
    hide Undone, Unlocked, CheckedRows, ChecksLater, Invisible;
  }

  lemma MemberCannotStep(s: State, members: set<nat>, i: nat)
    requires Ring(s, members) && i in members
    ensures !CanStep(s, i)
  {
    assert i < |s.sessions| && RingWait(s, i, members);
    var r :| Blocks(s, i, r) && r in s.locks && s.locks[r] in members;
    hide CanStep, Blocks, Ring;
    BlockedCannotStep(s, i, r);
  }

  lemma RingIs(s: State, members: set<nat>)
    ensures Ring(s, members) <==>
            members != {} && forall m | m in members :: m < |s.sessions| && RingWait(s, m, members)
  {
  }

  lemma RingRow(s: State, members: set<nat>, i: nat) returns (r: Row)
    requires i < |s.sessions| && RingWait(s, i, members)
    ensures r in s.locks && s.locks[r] in members
  {
    r :| Blocks(s, i, r) && r in s.locks && s.locks[r] in members;
  }

  lemma NoRing(ops: seq<Op>, s: State, members: set<nat>)
    requires Inv(s) && Serves(ops, s) && !Tangled(ops)
    ensures !Ring(s, members)
  {
    RingIs(s, members);
    hide *;
    if Ring(s, members) {
      var i :| i in members;
      var r := RingRow(s, members, i);
      ChaseRing(ops, s, members, r);
      var j :| j in members && CanStep(s, j);
      MemberCannotStep(s, members, j);
    }
  }
}
