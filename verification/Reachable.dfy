/** The laws of the sequential histories, read in every reachable state of the concurrent engine. */
module Reachable {
  import opened Domain
  import opened Spec
  import opened Tables
  import opened Engine
  import opened EngineInvariant
  import opened EngineVisibility
  import opened EngineMover
  import opened EngineBuyer
  import opened Serialisability
  import opened Ledger
  import opened Audit
  import opened Tenancy
  import opened CheckoutVerdict
  import opened MoveVerdict

  /** The tables everybody sees after a run. */
  function Seen(run: seq<State>): Db
    requires run != []
  {
    Visible(run[|run| - 1])
  }

  function LogOf(run: seq<State>): seq<nat>
    requires run != []
  {
    run[|run| - 1].log
  }

  lemma Reached(db: Db, ops: seq<Op>, run: seq<State>)
    requires Admissible(db, ops) && IsRun(db, ops, run)
    ensures Inv(run[|run| - 1]) && WellFormed(db) && WellFormed(Seen(run))
    ensures InRange(ops, LogOf(run)) && Replay(db, ops, LogOf(run)) == Some(Seen(run))
  {
    RunGood(db, ops, run);
    hide IsRun, Visible, Replay;
  }

  // ---------- stock ----------

  /** Conservation: after any run, shelf plus live orders equals what it was plus the partner's net
      edits among the committed calls. */
  lemma StockConserved(db: Db, ops: seq<Op>, run: seq<State>, d: Id)
    requires Admissible(db, ops) && IsRun(db, ops, run)
    ensures InRange(ops, LogOf(run))
    ensures Stock(Seen(run), d) + Held(Seen(run).orders, d)
            == Stock(db, d) + Held(db.orders, d) + NetEdits(db, ops, LogOf(run), d)
  {
    assert run != [];
    Reached(db, ops, run);
    hide *;
    ReplayConserves(db, ops, LogOf(run), d);
  }

  lemma SoldStock(t: Session, line: nat, dishes: map<Id, Dish>, d: Id)
    requires Buying(t) && SoldSoFar(t, line, dishes) && d in t.before
    requires 0 <= t.before[d].stock <= INT4_MAX
    ensures d in dishes && 0 <= dishes[d].stock <= INT4_MAX
  {
    AscendingIs(WantOf(t).Keys);
    ImagesAre(t.rows, line);
    assert d in Ids(t.rows[..line]);
    var j :| 0 <= j < line && Ids(t.rows[..line])[j] == d;
    assert t.rows[j].id == d;
    WantedPositive(t.op.input);
    hide Images, Wanted, Ascending, InputFault;
  }

  /** A row sold in place but not committed is still in range. */
  lemma SellerStock(s: State, i: nat, d: Id)
    requires LocalAt(s, i) && i < |s.sessions| && s.sessions[i].op.Checkout? && d in s.sessions[i].before
    requires 0 <= s.sessions[i].before[d].stock <= INT4_MAX
    ensures d in s.db.dishes && 0 <= s.db.dishes[d].stock <= INT4_MAX
  {
    var t := s.sessions[i];
    var line := if t.pc.Selling? then t.pc.line else |t.rows|;
    assert Buying(t) && SoldSoFar(t, line, s.db.dishes) by { assert Local(t, s.db); }
    hide LocalAt, Buying, SoldSoFar;
    SoldStock(t, line, s.db.dishes, d);
  }

  /** A row refunded in place but not committed is still in range. */
  lemma RefunderStock(s: State, i: nat, d: Id)
    requires LocalAt(s, i) && Mover(s, i) && d in s.sessions[i].before
    requires 0 <= s.sessions[i].before[d].stock <= INT4_MAX
    ensures d in s.db.dishes && 0 <= s.db.dishes[d].stock <= INT4_MAX
  {
    var t := s.sessions[i];
    assert Local(t, s.db);
    var items := t.order.value.items;
    var line := if t.pc.Refunding? then t.pc.line else |items|;
    assert RefundedSoFar(t, line, s.db.dishes);
    assert items[..|items|] == items;
    assert d in RefundedDishes(items, line);
    var j :| 0 <= j < line && RefundedDishes(items, line)[j] == d;
    assert items[j].dish == d;
    hide Local, Stamp, VerdictOn;
  }

  /** Stock never leaves the int4 range from 0, neither as others see it nor in place in the middle of a
      transaction. */
  lemma StockInRange(db: Db, ops: seq<Op>, run: seq<State>, d: Id)
    requires Admissible(db, ops) && IsRun(db, ops, run)
    requires d in run[|run| - 1].db.dishes
    ensures d in Seen(run).dishes && 0 <= Seen(run).dishes[d].stock <= INT4_MAX
    ensures 0 <= run[|run| - 1].db.dishes[d].stock <= INT4_MAX
  {
    assert run != [];
    Reached(db, ops, run);
    hide IsRun;
    StockRange(run[|run| - 1], d);
  }

  lemma StockRange(s: State, d: Id)
    requires Inv(s) && d in s.db.dishes
    ensures d in Visible(s).dishes && 0 <= Visible(s).dishes[d].stock <= INT4_MAX
    ensures 0 <= s.db.dishes[d].stock <= INT4_MAX
  {
    assert DishOk(Visible(s).categories, Visible(s).dishes[d]);
    assert Visible(s).dishes[d] == DishImage(s, d);
    if DishImage(s, d) != s.db.dishes[d] {
      var i := s.locks[DishRow(d)];
      assert LocalAt(s, i);
      assert Backed(s.sessions[i]) by { LocalBacked(s, i); }
      assert DishRow(d) in Footprint(s.sessions[i]);
      hide LocksOk, FreshOk, AllLocal, WellFormed, LocalAt, Backed;
      if s.sessions[i].op.Checkout? {
        SellerStock(s, i, d);
      } else {
        RefunderStock(s, i, d);
      }
    }
  }

  /** Table by table, `b` is `a` after this checkout: every requested dish has lost exactly its requested
      quantity, no other dish and no other order has changed, and the new order is in. */
  ghost predicate Bought(a: Db, b: Db, op: Op, d: Id)
    requires op.Checkout?
  {
    && (d in a.dishes ==> d in b.dishes && b.dishes[d] == a.dishes[d].(stock := a.dishes[d].stock - Asked(op, d)))
    && b.dishes.Keys == a.dishes.Keys && b.categories == a.categories
    && op.orderId !in a.orders && op.orderId in b.orders && b.orders == a.orders[op.orderId := b.orders[op.orderId]]
    && QtyOf(b.orders[op.orderId].items, d) == Asked(op, d)
  }

  lemma CommitBought(a: Db, b: Db, op: Op, d: Id)
    requires op.Checkout? && Apply(a, op) == Ok(b)
    ensures Bought(a, b, op, d)
  {
    CheckoutEffect(a, op, d);
    hide Apply, Asked, QtyOf;
  }

  /** All or nothing: a step of a checkout shows nothing at all, or it is the commit and shows the whole
      purchase, whatever dish d one looks at. */
  lemma CheckoutAllOrNothing(s: State, i: nat, s': State, d: Id)
    requires Inv(s) && Steps(s, i, s') && s.sessions[i].op.Checkout?
    ensures if s'.log == s.log then Visible(s') == Visible(s)
            else s'.log == s.log + [i] && Bought(Visible(s), Visible(s'), s.sessions[i].op, d)
  {
    assert i < |s.sessions|;
    hide *;
    StepIsAtomic(s, i, s');
    StepOrCommit(s, i, s');
    if s'.log != s.log {
      CommitBought(Visible(s), Visible(s'), s.sessions[i].op, d);
    }
  }

  lemma StepOrCommit(s: State, i: nat, s': State)
    requires i < |s.sessions| && Atomic(s, i, s')
    ensures if s'.log == s.log then Visible(s') == Visible(s)
            else s'.log == s.log + [i] && Apply(Visible(s), s.sessions[i].op) == Ok(Visible(s'))
  {
    hide Visible, Apply;
  }

  // ---------- locks ----------

  lemma RequestRows(t: Session, line: nat, dishes: map<Id, Dish>)
    requires Buying(t) && SoldSoFar(t, line, dishes)
    ensures var lines, want := t.op.input.lines, WantOf(t);
            && |t.rows| == |lines| && Ids(t.rows) == Ascending(want.Keys) && RowsCovered(t.rows, want)
            && forall k :: 0 <= k < |lines| ==> lines[k].dish in want && want[lines[k].dish] == lines[k].qty > 0
  {
    WantedIsRequest(t.op.input.lines);
    AscendingIs(WantOf(t).Keys);
    assert |Ids(t.rows)| == |t.rows|;
    hide Ascending, Wanted;
  }

  /** A session's locks are its footprint. */
  lemma HeldAre(s: State, i: nat)
    requires LocksOk(s) && i < |s.sessions|
    ensures forall r :: r in s.locks && s.locks[r] == i <==> r in Footprint(s.sessions[i])
  {
    hide Footprint;
  }

  /** Lock bijection: a checkout that has got past its row count holds exactly the rows it asked for, each
      line with its own row and quantity; and once a line has passed its checks, the guard inside
      DecrementStock cannot fail. */
  lemma LocksAreTheRequest(s: State, i: nat)
    requires Inv(s) && i < |s.sessions| && s.sessions[i].op.Checkout? && s.sessions[i].pc.Selling?
    ensures
      var t := s.sessions[i];
      var lines, want := t.op.input.lines, WantOf(t);
      && |t.rows| == |lines| && Ids(t.rows) == Ascending(want.Keys) && RowsCovered(t.rows, want)
      && (forall k :: 0 <= k < |lines| ==> lines[k].dish in want && want[lines[k].dish] == lines[k].qty > 0)
      && (forall r :: r in s.locks && s.locks[r] == i <==> r in DishRows(Ids(t.rows)))
      && (SellsNow(s, i) ==> Sell(s, i).sessions[i].pc == Selling(t.pc.line + 1, Sell(s, i).sessions[i].pc.total))
  {
    var t := s.sessions[i];
    assert LocalAt(s, i);
    assert Buying(t) && SoldSoFar(t, t.pc.line, s.db.dishes) by { assert Local(t, s.db); }
    assert Footprint(t) == DishRows(Ids(t.rows));
    if SellsNow(s, i) {
      SellEffect(s, i);
      assert SoldOne(t, t.pc.line, t.pc.total, s.db.dishes).pc.Selling?;
    }
    HeldAre(s, i);
    hide *;
    RequestRows(t, t.pc.line, s.db.dishes);
  }

  // ---------- orders ----------

  /** Every order's audit trail, in append order, in every reachable state. */
  lemma AuditTrails(db: Db, ops: seq<Op>, run: seq<State>, o: Id)
    requires Admissible(db, ops) && IsRun(db, ops, run) && o in Seen(run).orders
    ensures var order := Seen(run).orders[o];
            && Chain(order.history) && 1 <= |order.history| <= 6
            && order.history[|order.history| - 1].to == order.status
            && (forall entries | multiset(entries) == multiset(order.history) && Links(entries) ::
                  entries == order.history)
  {
    assert run != [];
    Reached(db, ops, run);
    var order := Seen(run).orders[o];
    assert OrderOk(order, Seen(run).dishes);
    hide IsRun, Seen, WellFormed, Replay;
    ChainBound(order.history);
    forall entries | multiset(entries) == multiset(order.history) && Links(entries)
      ensures entries == order.history
    {
      ChainUnique(order.history, entries);
    }
  }

  /** Whatever cancellations compete, the committed calls on an order have returned its quantities
      exactly once if it is cancelled and never otherwise. */
  lemma RefundsOnce(db: Db, ops: seq<Op>, run: seq<State>, o: Id, d: Id)
    requires Admissible(db, ops) && IsRun(db, ops, run)
    ensures InRange(ops, LogOf(run))
    ensures GivenBack(db, o, d) + Returned(db, ops, LogOf(run), o, d) == GivenBack(Seen(run), o, d)
  {
    assert run != [];
    Reached(db, ops, run);
    hide *;
    RefundedOnce(db, ops, LogOf(run), o, d);
  }

  /** An order whose trail passes through ready has had nothing returned, in every reachable state. */
  lemma ReadyIsKept(db: Db, ops: seq<Op>, run: seq<State>, o: Id, k: nat, d: Id)
    requires Admissible(db, ops) && IsRun(db, ops, run)
    requires o in Seen(run).orders && k < |Seen(run).orders[o].history| && Seen(run).orders[o].history[k].to == Ready
    ensures InRange(ops, LogOf(run)) && Returned(db, ops, LogOf(run), o, d) == 0
  {
    assert run != [];
    Reached(db, ops, run);
    hide *;
    ReadyNeverRefunded(db, ops, LogOf(run), o, k, d);
  }

  /** When every committed call was made for restaurant r, no other restaurant sees any change. */
  lemma TenantsApart(db: Db, ops: seq<Op>, run: seq<State>, r: Id)
    requires Admissible(db, ops) && IsRun(db, ops, run)
    requires forall k :: 0 <= k < |LogOf(run)| && LogOf(run)[k] < |ops| ==> MadeFor(ops[LogOf(run)[k]], r)
    ensures Elsewhere(Seen(run), r) == Elsewhere(db, r)
  {
    assert run != [];
    Reached(db, ops, run);
    assert forall k :: 0 <= k < |LogOf(run)| ==> LogOf(run)[k] < |ops|;
    hide *;
    Isolation(db, ops, LogOf(run), r);
  }

  // ---------- later states ----------

  lemma {:induction false} LogGrows(db: Db, ops: seq<Op>, run: seq<State>, k: nat)
    requires IsRun(db, ops, run) && 0 < k <= |run|
    ensures IsRun(db, ops, run[..k]) && LogOf(run[..k]) <= LogOf(run)
  {
    assert run != [];
    if k == |run| {
      assert run[..k] == run;
    } else {
      hide *;
      var n := |run| - 1;
      var i := RunPrefix(db, ops, run);
      LogGrows(db, ops, run[..n], k);
      assert run[..n][..k] == run[..k];
      StepLogs(run[n - 1], i, run[n]);
      LogStepGrows(run, i);
    }
  }

  lemma LogStepGrows(run: seq<State>, i: nat)
    requires |run| > 1 && i < |run[|run| - 2].sessions| && LogStep(run[|run| - 2], i, run[|run| - 1])
    ensures LogOf(run[..|run| - 1]) <= LogOf(run)
  {
  }

  /** An order seen at some moment of a run is seen at every later one, with the same receipt, total
      and owners, and a trail that extends the earlier one. */
  lemma OrdersOnlyAge(db: Db, ops: seq<Op>, run: seq<State>, k: nat, o: Id)
    requires Admissible(db, ops) && IsRun(db, ops, run) && 0 < k <= |run|
    requires o in Seen(run[..k]).orders
    ensures o in Seen(run).orders && Aged(Seen(run[..k]).orders[o], Seen(run).orders[o])
  {
    assert run != [];
    LogGrows(db, ops, run, k);
    Reached(db, ops, run);
    Reached(db, ops, run[..k]);
    hide *;
    var log, m := LogOf(run), |LogOf(run[..k])|;
    assert log[..m] == LogOf(run[..k]);
    ReceiptsFrozen(db, ops, log, m, o);
  }

  /** Between two moments of a run an order changes only by a committed call of its own restaurant or its own
      customer. */
  lemma OnlyPartiesMove(db: Db, ops: seq<Op>, run: seq<State>, k: nat, o: Id)
    requires Admissible(db, ops) && IsRun(db, ops, run) && 0 < k <= |run| && o in Seen(run[..k]).orders
    requires forall n :: |LogOf(run[..k])| <= n < |LogOf(run)| && LogOf(run)[n] < |ops| ==>
               !MovesAsParty(ops[LogOf(run)[n]], o, Seen(run[..k]).orders[o])
    ensures o in Seen(run).orders && Seen(run).orders[o] == Seen(run[..k]).orders[o]
  {
    assert run != [];
    LogGrows(db, ops, run, k);
    Reached(db, ops, run);
    Reached(db, ops, run[..k]);
    var log, m := LogOf(run), |LogOf(run[..k])|;
    assert log[..m] == LogOf(run[..k]);
    assert forall n :: 0 <= n < |log| ==> log[n] < |ops|;
    hide *;
    OnlyParties(db, ops, log, m, o);
  }

  /** When the committed calls were other customers' checkouts and cancellations and menu calls, no order of u
      has been added, removed or changed. */
  lemma CustomersApart(db: Db, ops: seq<Op>, run: seq<State>, u: Id)
    requires Admissible(db, ops) && IsRun(db, ops, run)
    requires forall k :: 0 <= k < |LogOf(run)| && LogOf(run)[k] < |ops| ==> MadeByOthers(ops[LogOf(run)[k]], u)
    ensures OrdersOf(Seen(run), u) == OrdersOf(db, u)
  {
    assert run != [];
    Reached(db, ops, run);
    assert forall k :: 0 <= k < |LogOf(run)| ==> LogOf(run)[k] < |ops|;
    hide *;
    CustomersIsolated(db, ops, LogOf(run), u);
  }

  // ---------- interruptions ----------

  lemma CutOffSteps(s: State, i: nat)
    requires Inv(s) && i < |s.sessions| && !s.sessions[i].Committed() && !s.sessions[i].Over()
    ensures Steps(s, i, Reject(s, i, Interrupted)) && Unseen(s, i, Reject(s, i, Interrupted))
  {
    RejectStep(s, i, Interrupted);
    hide Inv, Unseen, Reject, Advance;
  }

  lemma CutOffFrees(s: State, i: nat)
    requires i < |s.sessions|
    ensures var s' := Reject(s, i, Interrupted);
            && i < |s'.sessions| && s'.sessions[i].pc == Rejected(Interrupted)
            && forall r | r in s'.locks :: s'.locks[r] != i
  {
    hide Undone;
  }

  /** At every moment of every run any call that has not committed may be cut off, in the middle of its
      transaction too: the run goes on with its rollback, which frees its locks and shows the others
      nothing. */
  lemma CutOffAnyMoment(db: Db, ops: seq<Op>, run: seq<State>, i: nat) returns (longer: seq<State>)
    requires Admissible(db, ops) && IsRun(db, ops, run) && i < |run[|run| - 1].sessions|
    requires var pc := run[|run| - 1].sessions[i].pc; !pc.Notifying? && !pc.Finished? && !pc.Rejected?
    ensures IsRun(db, ops, longer) && |longer| == |run| + 1 && Seen(longer) == Seen(run) && LogOf(longer) == LogOf(run)
    ensures var s := longer[|longer| - 1];
            && i < |s.sessions| && s.sessions[i].pc == Rejected(Interrupted)
            && forall r | r in s.locks :: s.locks[r] != i
  {
    assert run != [];
    var s := run[|run| - 1];
    Reached(db, ops, run);
    CutOffSteps(s, i);
    CutOffFrees(s, i);
    assert Visible(Reject(s, i, Interrupted)) == Visible(s) && Reject(s, i, Interrupted).log == s.log;
    hide Inv, IsRun, Admissible, Unseen, Visible, Steps, Reject, Replay, WellFormed;
    RunGoesOn(db, ops, run, i, Reject(s, i, Interrupted));
    longer := run + [Reject(s, i, Interrupted)];
  }

  // ---------- what a commit proves ----------

  /** A committed call was acceptable on the tables its predecessors had left. */
  lemma {:induction false} CommittedWasAccepted(init: Db, ops: seq<Op>, log: seq<nat>, k: nat)
    requires InRange(ops, log) && Replay(init, ops, log).Some? && k < |log|
    ensures InRange(ops, log[..k]) && Replay(init, ops, log[..k]).Some?
    ensures Apply(Replay(init, ops, log[..k]).value, ops[log[k]]).Ok?
    ensures InRange(ops, log[..k + 1])
    ensures Replay(init, ops, log[..k + 1]) == Some(Apply(Replay(init, ops, log[..k]).value, ops[log[k]]).value)
  {
    var n := |log| - 1;
    var before := ReplayPrefix(init, ops, log);
    if k == n {
      assert log[..k + 1] == log;
    } else {
      CommittedWasAccepted(init, ops, log[..n], k);
      assert log[..n][..k] == log[..k] && log[..n][..k + 1] == log[..k + 1];
    }
    hide Apply;
  }

  /** The tables when the k-th committed call of the run committed. */
  ghost function Before(db: Db, ops: seq<Op>, run: seq<State>, k: nat): Db
    requires run != [] && k < |LogOf(run)| && InRange(ops, LogOf(run)[..k])
    requires Replay(db, ops, LogOf(run)[..k]).Some?
  {
    Replay(db, ops, LogOf(run)[..k]).value
  }

  /** Whatever the interleaving, a committed checkout met every condition on the tables it committed on, an
      active restaurant included, and its order still carries what was written then: each line at the name and
      price its dish had. */
  lemma CommittedCheckout(db: Db, ops: seq<Op>, run: seq<State>, k: nat)
    requires Admissible(db, ops) && IsRun(db, ops, run) && k < |LogOf(run)|
    requires LogOf(run)[k] < |ops| && ops[LogOf(run)[k]].Checkout?
    ensures InRange(ops, LogOf(run)[..k]) && Replay(db, ops, LogOf(run)[..k]).Some?
    ensures var op, before := ops[LogOf(run)[k]], Before(db, ops, run, k);
            && Accepts(before, op) && op.sample.value.active
            && op.orderId in Seen(run).orders
            && var order := Seen(run).orders[op.orderId];
               WrittenOrder(before, op, order.(status := Created, history := [Entry(None, Created, System)]))
  {
    assert run != [];
    Reached(db, ops, run);
    var log := LogOf(run);
    hide IsRun, Admissible, Seen, Replay, Apply;
    CommittedWasAccepted(db, ops, log, k);
    var before, op := Before(db, ops, run, k), ops[log[k]];
    CheckoutAccepted(before, op);
    CheckoutWrites(before, op);
    ReceiptsFrozen(db, ops, log, k + 1, op.orderId);
  }

  /** A committed cancellation was made by the customer who placed the order, while nobody had taken it up. */
  lemma CommittedCancel(db: Db, ops: seq<Op>, run: seq<State>, k: nat)
    requires Admissible(db, ops) && IsRun(db, ops, run) && k < |LogOf(run)|
    requires LogOf(run)[k] < |ops| && ops[LogOf(run)[k]].CustomerCancel?
    ensures InRange(ops, LogOf(run)[..k]) && Replay(db, ops, LogOf(run)[..k]).Some?
    ensures var op, before := ops[LogOf(run)[k]], Before(db, ops, run, k);
            && op.order in before.orders && before.orders[op.order].user == op.user
            && before.orders[op.order].status == Created
            && op.order in Seen(run).orders && Seen(run).orders[op.order].status == Cancelled
  {
    assert run != [];
    Reached(db, ops, run);
    var log := LogOf(run);
    CommittedWasAccepted(db, ops, log, k);
    var before, op := Before(db, ops, run, k), ops[log[k]];
    ReplayKeeps(db, ops, log[..k]);
    hide IsRun, Admissible, Seen, Replay, Apply, WellFormed;
    CancelAccepted(before, op);
    CancelWrites(before, op);
    ReceiptsFrozen(db, ops, log, k + 1, op.order);
  }

  /** A committed status change was made by the order's own restaurant, along a forward move or out of one of
      the three statuses it may cancel from. */
  lemma CommittedMove(db: Db, ops: seq<Op>, run: seq<State>, k: nat)
    requires Admissible(db, ops) && IsRun(db, ops, run) && k < |LogOf(run)|
    requires LogOf(run)[k] < |ops| && ops[LogOf(run)[k]].ChangeStatus?
    ensures InRange(ops, LogOf(run)[..k]) && Replay(db, ops, LogOf(run)[..k]).Some?
    ensures var op, before := ops[LogOf(run)[k]], Before(db, ops, run, k);
            && op.order in before.orders && before.orders[op.order].restaurant == op.restaurant
            && if op.status == Cancelled then before.orders[op.order].status in {Created, Accepted, Cooking}
               else Forward(before.orders[op.order].status, op.status)
  {
    assert run != [];
    Reached(db, ops, run);
    hide *;
    CommittedWasAccepted(db, ops, LogOf(run), k);
    StatusAccepted(Before(db, ops, run, k), ops[LogOf(run)[k]]);
  }

  /** Every entry of every reachable trail, status by status. */
  lemma TrailsSpelledOut(db: Db, ops: seq<Op>, run: seq<State>, o: Id, k: nat)
    requires Admissible(db, ops) && IsRun(db, ops, run) && o in Seen(run).orders && k < |Seen(run).orders[o].history|
    ensures var entry := Seen(run).orders[o].history[k];
            || (k == 0 && entry == Entry(None, Created, System))
            || (k > 0 && entry.actor == Restaurant && entry.from.Some? && Forward(entry.from.value, entry.to))
            || (k > 0 && entry.actor == Customer && entry.from == Some(Created) && entry.to == Cancelled)
            || (k > 0 && entry.actor == Restaurant && entry.to == Cancelled
                && entry.from in {Some(Created), Some(Accepted), Some(Cooking)})
  {
    assert run != [];
    AuditTrails(db, ops, run, o);
    hide *;
    TrailMoves(Seen(run).orders[o].history, k);
  }

  /** The schema's constraints, row by row: names unique within a restaurant, numbers in range, a dish in a
      category of its own restaurant, and receipts that name each dish once, dishes of the order's restaurant. */
  ghost predicate SchemaOk(now: Db) {
    && (forall b, c | b in now.categories && c in now.categories && b != c ::
          now.categories[b].restaurant != now.categories[c].restaurant
          || now.categories[b].name != now.categories[c].name)
    && (forall d | d in now.dishes ::
          && 0 <= now.dishes[d].price < 0x8000_0000_0000_0000 && 0 <= now.dishes[d].stock <= 0x7FFF_FFFF
          && now.dishes[d].category in now.categories
          && now.categories[now.dishes[d].category].restaurant == now.dishes[d].restaurant)
    && (forall o | o in now.orders :: 0 <= now.orders[o].total < 0x8000_0000_0000_0000)
    && (forall o, k | o in now.orders && 0 <= k < |now.orders[o].items| ::
          && now.orders[o].items[k].qty > 0 && now.orders[o].items[k].price >= 0
          && now.orders[o].items[k].dish in now.dishes
          && now.dishes[now.orders[o].items[k].dish].restaurant == now.orders[o].restaurant)
    && (forall o, j, k | o in now.orders && 0 <= j < k < |now.orders[o].items| ::
          now.orders[o].items[j].dish != now.orders[o].items[k].dish)
  }

  lemma OrderSchema(now: Db, o: Id)
    requires WellFormed(now) && o in now.orders
    ensures 0 <= now.orders[o].total < 0x8000_0000_0000_0000
    ensures forall k :: 0 <= k < |now.orders[o].items| ==>
              && now.orders[o].items[k].qty > 0 && now.orders[o].items[k].price >= 0
              && now.orders[o].items[k].dish in now.dishes
              && now.dishes[now.orders[o].items[k].dish].restaurant == now.orders[o].restaurant
    ensures forall j, k :: 0 <= j < k < |now.orders[o].items| ==>
              now.orders[o].items[j].dish != now.orders[o].items[k].dish
  {
    var items := now.orders[o].items;
    assert OrderOk(now.orders[o], now.dishes);
    forall j, k | 0 <= j < k < |items| ensures items[j].dish != items[k].dish {
      assert DishesOf(items)[j] < DishesOf(items)[k];
    }
    hide WellFormed, HistoryOk, ExactTotal;
  }

  lemma WellFormedSchema(now: Db)
    requires WellFormed(now)
    ensures SchemaOk(now)
  {
    forall o | o in now.orders
      ensures 0 <= now.orders[o].total < 0x8000_0000_0000_0000
      ensures forall k :: 0 <= k < |now.orders[o].items| ==>
                && now.orders[o].items[k].qty > 0 && now.orders[o].items[k].price >= 0
                && now.orders[o].items[k].dish in now.dishes
                && now.dishes[now.orders[o].items[k].dish].restaurant == now.orders[o].restaurant
      ensures forall j, k :: 0 <= j < k < |now.orders[o].items| ==>
                now.orders[o].items[j].dish != now.orders[o].items[k].dish
    {
      OrderSchema(now, o);
    }
    forall d | d in now.dishes ensures DishOk(now.categories, now.dishes[d]) {}
    hide OrderOk;
  }

  lemma SchemaHolds(db: Db, ops: seq<Op>, run: seq<State>)
    requires Admissible(db, ops) && IsRun(db, ops, run)
    ensures SchemaOk(Seen(run))
  {
    assert run != [];
    Reached(db, ops, run);
    hide *;
    WellFormedSchema(Seen(run));
  }
}
