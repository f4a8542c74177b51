/** A rush on one dish: any number of concurrent one-unit checkouts sell exactly what is in stock. */
module SellThrough {
  import opened Domain
  import opened Spec
  import opened Tables
  import opened Engine
  import opened EngineInvariant
  import opened EngineVisibility
  import opened EngineBuyer
  import opened EngineMover
  import opened Serialisability
  import opened Answers
  import opened Ledger

  /** A valid checkout of one unit of dish d, from the dish's own restaurant, found active. */
  ghost predicate WantsOne(op: Op, d: Id, restaurant: Id) {
    && op.Checkout? && op.input.lines == [Line(d, 1)] && op.input.restaurant == restaurant
    && EntryFault(op.input, op.sample).None?
  }

  /** The dish is on sale, and nothing but one-unit checkouts of it is going on. */
  ghost predicate Rush(db: Db, ops: seq<Op>, d: Id) {
    && d in db.dishes && db.dishes[d].available
    && forall i :: 0 <= i < |ops| ==> WantsOne(ops[i], d, db.dishes[d].restaurant)
  }

  // ---------- one unit, sequentially ----------

  lemma UnitWanted(op: Op, d: Id, restaurant: Id)
    requires WantsOne(op, d, restaurant)
    ensures Wanted(op.input.lines) == map[d := 1]
  {
    assert op.input.lines[..0] == [];
  }

  lemma UnitRows(dishes: map<Id, Dish>, d: Id)
    requires d in dishes
    ensures FetchWanted(dishes, map[d := 1]) == [Fetched(d, dishes[d])]
  {
    var want: map<Id, int> := map[d := 1];
    var rows := FetchWanted(dishes, want);
    assert want.Keys == {d};
    AscendingIs({d});
    assert |rows| == |Ids(rows)| == 1;
    assert Ids(rows)[0] in Ascending({d});
  }

  lemma UnitSale(db: Db, op: Op, row: Fetched)
    requires op.Checkout? && row.dish.restaurant == op.input.restaurant && row.dish.available
    requires DishInRange(row.dish) && op.orderId !in db.orders
    ensures var want := map[row.id := 1];
            Sale(db, op.input, op.orderId, [row], want).Ok? == (row.dish.stock >= 1)
            && (row.dish.stock < 1 ==> Sale(db, op.input, op.orderId, [row], want) == Err(OutOfStock))
  {
    var want: map<Id, int> := map[row.id := 1];
    assert [row][..0] == [] && [row][0] == row;
    assert LinesFault([row], op.input.restaurant, want) == LineFault(row.dish, op.input.restaurant, 1);
    var items := Receipt([row], want);
    assert items[..0] == [];
    assert ExactTotal(items) == row.dish.price;
  }

  /** A one-unit checkout is accepted exactly while there is a unit left. */
  lemma UnitVerdict(db: Db, op: Op, d: Id)
    requires d in db.dishes && WantsOne(op, d, db.dishes[d].restaurant)
    requires db.dishes[d].available && DishInRange(db.dishes[d]) && op.orderId !in db.orders
    ensures Apply(db, op).Ok? == (db.dishes[d].stock >= 1)
    ensures db.dishes[d].stock < 1 ==> Apply(db, op) == Err(OutOfStock)
  {
    UnitWanted(op, d, db.dishes[d].restaurant);
    UnitRows(db.dishes, d);
    UnitSale(db, op, Fetched(d, db.dishes[d]));
    hide FetchWanted, Wanted, Sale;
  }

  // ---------- the rush, step by step ----------

  /** Sold so far is what the log says; nobody was turned away while a unit was left. */
  ghost predicate Selling(db: Db, d: Id, s: State)
    requires d in db.dishes
  {
    && d in Visible(s).dishes
    && Visible(s).dishes[d] == db.dishes[d].(stock := db.dishes[d].stock - |s.log|)
    && (forall i :: 0 <= i < |s.sessions| && s.sessions[i].pc.Locking? ==> d in s.sessions[i].known)
    && (forall i :: 0 <= i < |s.sessions| && s.sessions[i].pc.Rejected? ==> TurnedAway(db, d, s, i))
  }

  ghost predicate TurnedAway(db: Db, d: Id, s: State, i: nat)
    requires d in db.dishes && i < |s.sessions|
  {
    || s.sessions[i].pc == Rejected(Interrupted)
    || (s.sessions[i].pc == Rejected(OutOfStock) && |s.log| == db.dishes[d].stock)
  }

  /** A checkout that is turned away has not written its order yet. */
  lemma RefusedIsPending(s: State, i: nat, s': State)
    requires i < |s.sessions| && s.sessions[i].op.Checkout? && AdvanceCheckout(s, i) == Some(s')
    requires i < |s'.sessions| && s'.sessions[i].pc.Rejected?
    ensures s.sessions[i].op.orderId in Pending(s.sessions[i])
  {
    hide Undone, Unlocked, Wanted, ReceiptSoFar, Wrap64, EntryFault;
  }

  /** A checkout turned away by the engine itself found the shelf empty. */
  lemma RefusedMeansEmpty(db: Db, ops: seq<Op>, d: Id, s: State, i: nat, s': State, error: Error)
    requires Rush(db, ops, d) && Inv(s) && Serial(db, ops, s) && Selling(db, d, s)
    requires i < |s.sessions| && Advance(s, i) == Some(s')
    requires i < |s'.sessions| && s'.sessions[i].pc == Rejected(error)
    ensures error == OutOfStock && |s.log| == db.dishes[d].stock
  {
    var t := s.sessions[i];
    assert t.op == ops[i] && WantsOne(t.op, d, db.dishes[d].restaurant);
    RefusedIsPending(s, i, s');
    RejectionIsSequential(s, i, s', error);
    UnitWanted(t.op, d, db.dishes[d].restaurant);
    assert !Late(s, i) && !Outdated(s, i);
    assert DishInRange(Visible(s).dishes[d]) by { assert DishOk(Visible(s).categories, Visible(s).dishes[d]); }
    assert Unused(s.db, t.op.orderId);
    assert t.op.orderId !in Visible(s).orders;
    hide Inv, Visible, Advance, Serial, Apply, WantsOne;
    UnitVerdict(Visible(s), t.op, d);
  }

  /** A step changes only its own session; after a scan the dish is known. */
  lemma ScanKnows(s: State, i: nat, s': State, d: Id)
    requires i < |s.sessions| && s.sessions[i].op.Checkout? && Wanted(s.sessions[i].op.input.lines) == map[d := 1]
    requires d in s.db.dishes && AdvanceCheckout(s, i) == Some(s') && i < |s'.sessions|
    requires s.sessions[i].pc.Locking? ==> d in s.sessions[i].known
    ensures s'.sessions[i].pc.Locking? ==> d in s'.sessions[i].known
  {
    hide Undone, Unlocked, Wanted, ReceiptSoFar, Wrap64, EntryFault, LineFault, Ascending;
  }

  /** What the step itself did, other sessions aside. */
  lemma OwnSelling(db: Db, ops: seq<Op>, d: Id, s: State, i: nat, s': State)
    requires Rush(db, ops, d) && Inv(s) && Serial(db, ops, s) && Selling(db, d, s) && Steps(s, i, s')
    requires |s'.sessions| == |s.sessions|
    ensures s'.sessions[i].pc.Locking? ==> d in s'.sessions[i].known
    ensures s'.sessions[i].pc.Rejected? ==>
              || s'.sessions[i].pc == Rejected(Interrupted)
              || (s'.sessions[i].pc == Rejected(OutOfStock) && |s.log| == db.dishes[d].stock)
  {
    var t := s.sessions[i];
    assert t.op == ops[i] && WantsOne(t.op, d, db.dishes[d].restaurant);
    UnitWanted(t.op, d, db.dishes[d].restaurant);
    assert d in s.db.dishes;
    if Advance(s, i) == Some(s') {
      assert AdvanceCheckout(s, i) == Some(s');
      ScanKnows(s, i, s', d);
      if s'.sessions[i].pc.Rejected? {
        RefusedMeansEmpty(db, ops, d, s, i, s', s'.sessions[i].pc.error);
      }
    }
  }

  /** Every commit takes one unit. */
  lemma UnitSold(db: Db, ops: seq<Op>, d: Id, s: State, i: nat, s': State)
    requires Rush(db, ops, d) && Serial(db, ops, s) && Selling(db, d, s) && i < |s.sessions| && Atomic(s, i, s')
    ensures d in Visible(s').dishes
    ensures Visible(s').dishes[d] == db.dishes[d].(stock := db.dishes[d].stock - |s'.log|)
    ensures |s'.log| >= |s.log|
  {
    var op := s.sessions[i].op;
    assert op == ops[i] && WantsOne(op, d, db.dishes[d].restaurant);
    if s'.log != s.log {
      UnitWanted(op, d, db.dishes[d].restaurant);
      CheckoutEffect(Visible(s), op, d);
    }
    hide Visible, Apply, Serial, QtyOf;
  }

  lemma SellingFrame(db: Db, d: Id, s: State, i: nat, s': State)
    requires d in db.dishes && Selling(db, d, s) && i < |s.sessions| && LogStep(s, i, s')
    requires d in Visible(s').dishes && |s.log| <= |s'.log| <= db.dishes[d].stock
    requires Visible(s').dishes[d] == db.dishes[d].(stock := db.dishes[d].stock - |s'.log|)
    requires s'.sessions[i].pc.Locking? ==> d in s'.sessions[i].known
    requires s'.sessions[i].pc.Rejected? ==>
               || s'.sessions[i].pc == Rejected(Interrupted)
               || (s'.sessions[i].pc == Rejected(OutOfStock) && |s.log| == db.dishes[d].stock)
    ensures Selling(db, d, s')
  {
    hide Visible;
    forall j | 0 <= j < |s'.sessions|
      ensures s'.sessions[j].pc.Locking? ==> d in s'.sessions[j].known
      ensures s'.sessions[j].pc.Rejected? ==> TurnedAway(db, d, s', j)
    {
      if j != i {
        assert s'.sessions[j] == s.sessions[j];
        assert s.sessions[j].pc.Rejected? ==> TurnedAway(db, d, s, j);
      }
    }
  }

  lemma SellingKeeps(db: Db, ops: seq<Op>, d: Id, s: State, i: nat, s': State)
    requires Rush(db, ops, d) && Inv(s) && Serial(db, ops, s) && Selling(db, d, s) && Steps(s, i, s')
    ensures Selling(db, d, s')
  {
    assert i < |s.sessions| && d in db.dishes;
    StepIsAtomic(s, i, s');
    StepLogs(s, i, s');
    UnitSold(db, ops, d, s, i, s');
    assert 0 <= Visible(s').dishes[d].stock by { assert DishOk(Visible(s').categories, Visible(s').dishes[d]); }
    assert |s'.sessions| == |s.sessions|;
    hide *;
    OwnSelling(db, ops, d, s, i, s');
    SellingFrame(db, d, s, i, s');
  }

  lemma {:induction false} RunSelling(db: Db, ops: seq<Op>, d: Id, run: seq<State>)
    requires Admissible(db, ops) && Rush(db, ops, d) && IsRun(db, ops, run)
    ensures Selling(db, d, run[|run| - 1])
  {
    assert run != [] && run[0] == Init(db, ops);
    if |run| == 1 {
      InitVisible(db, ops);
    } else {
      hide Selling, Rush, Admissible, IsRun;
      var n := |run| - 1;
      var i := RunPrefix(db, ops, run);
      RunSelling(db, ops, d, run[..n]);
      RunGood(db, ops, run[..n]);
      SellingKeeps(db, ops, d, run[n - 1], i, run[n]);
    }
  }

  // ---------- counting ----------

  function UpTo(n: nat): set<nat> {
    if n == 0 then {} else UpTo(n - 1) + {n - 1}
  }

  lemma {:induction false} UpToIs(n: nat)
    ensures |UpTo(n)| == n
    ensures forall i: nat :: i in UpTo(n) <==> i < n
  {
    if n > 0 {
      UpToIs(n - 1);
    }
  }

  function Logged(log: seq<nat>): set<nat> {
    set i | i in log
  }

  lemma {:induction false} LoggedSize(log: seq<nat>)
    requires NoRepeats(log)
    ensures |Logged(log)| == |log|
  {
    if log != [] {
      var n := |log| - 1;
      LoggedSize(log[..n]);
      assert log == log[..n] + [log[n]];
      assert Logged(log) == Logged(log[..n]) + {log[n]};
    }
  }

  /** Calls cut off by a lost connection or context. */
  function CutOff(s: State): set<nat> {
    set i: nat | 0 <= i < |s.sessions| && s.sessions[i].pc == Rejected(Interrupted)
  }

  function SoldOut(s: State): set<nat> {
    set i: nat | 0 <= i < |s.sessions| && s.sessions[i].pc == Rejected(OutOfStock)
  }

  lemma Outcomes(db: Db, d: Id, s: State)
    requires d in db.dishes && Selling(db, d, s) && LogOk(s) && Quiet(s)
    ensures |s.sessions| == |s.log| + |CutOff(s)| + |SoldOut(s)|
  {
    var n := |s.sessions|;
    forall i | 0 <= i < n
      ensures i in Logged(s.log) || i in CutOff(s) || i in SoldOut(s)
    {
      assert s.sessions[i].Over();
      assert s.sessions[i].pc.Rejected? ==> TurnedAway(db, d, s, i);
    }
    assert Logged(s.log) !! CutOff(s) && (Logged(s.log) + CutOff(s)) !! SoldOut(s);
    assert forall i: nat :: i in Logged(s.log) + CutOff(s) + SoldOut(s) <==> i < n;
    LoggedSize(s.log);
    UpToIs(n);
    hide *;
    assert UpTo(n) == Logged(s.log) + CutOff(s) + SoldOut(s);
    assert |Logged(s.log) + CutOff(s)| == |Logged(s.log)| + |CutOff(s)|;
  }

  function Min(a: int, b: int): int {
    if a <= b then a else b
  }

  /** Exact sell-through: when a rush is over, under any interleaving, the sales are as many as the stock
      or as the checkouts that were not cut off, whichever is less; the shelf holds the rest; and
      everybody who was refused was refused for lack of stock. */
  lemma ExactSellThrough(db: Db, ops: seq<Op>, d: Id, run: seq<State>)
    requires Admissible(db, ops) && Rush(db, ops, d) && IsRun(db, ops, run) && Quiet(run[|run| - 1])
    ensures var s := run[|run| - 1];
            && |s.log| == Min(|ops| - |CutOff(s)|, db.dishes[d].stock)
            && d in s.db.dishes && s.db.dishes[d].stock == db.dishes[d].stock - |s.log|
            && |SoldOut(s)| == |ops| - |CutOff(s)| - |s.log|
  {
    var s := run[|run| - 1];
    RunSelling(db, ops, d, run);
    RunGood(db, ops, run);
    QuietVisible(s);
    assert 0 <= s.db.dishes[d].stock by { assert DishOk(Visible(s).categories, Visible(s).dishes[d]); }
    assert LogOk(s) && |s.sessions| == |ops|;
    hide IsRun, Admissible, Inv, Serial, Visible, Rush, LogOk;
    Outcomes(db, d, s);
    if SoldOut(s) != {} {
      var i :| i in SoldOut(s);
      assert TurnedAway(db, d, s, i);
    }
  }
}
