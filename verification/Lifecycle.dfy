/** The whole lifecycle does happen: the five forward moves of a restaurant's own order, one after the other,
    each in its own transaction, from created to completed. */
module Lifecycle {
  import opened Domain
  import opened Spec
  import opened Tables
  import opened Engine
  import opened EngineMover
  import opened Serialisability
  import opened MoveVerdict

  /** Where the five moves lead. */
  const STOPS: seq<Status> := [Accepted, Cooking, Ready, Delivering, Completed]

  function Moves(restaurant: Id, order: Id, url: string): (ops: seq<Op>) {
    seq(|STOPS|, k requires 0 <= k < |STOPS| => ChangeStatus(restaurant, order, STOPS[k], url))
  }

  /** Nobody holds anything, and session i is about to move an order of its own restaurant forward. */
  ghost predicate Alone(s: State, i: nat) {
    && i < |s.sessions| && s.locks == map[] && s.sessions[i] == NewSession(s.sessions[i].op)
    && var op := s.sessions[i].op;
       && op.ChangeStatus? && op.restaurant != 0 && op.order != 0 && op.order in s.db.orders
       && s.db.orders[op.order].restaurant == op.restaurant && Forward(s.db.orders[op.order].status, op.status)
  }

  /** The state after statement n of the call: order locked, judged, stamped, committed, notified. */
  function After(s: State, i: nat, n: nat): State
    requires i < |s.sessions| && s.sessions[i].op.ChangeStatus? && s.sessions[i].op.order in s.db.orders
  {
    var op := s.sessions[i].op;
    var was := s.db.orders[op.order];
    var held := NewSession(op).(order := Some(was));
    var locks := map[OrderRow(op.order) := i];
    var moved := s.db.(orders := s.db.orders[op.order := Stamp(was, op.status, Restaurant)]);
    if n == 0 then s.(sessions := s.sessions[i := held.(pc := Judging)], locks := locks)
    else if n == 1 then s.(sessions := s.sessions[i := held.(pc := Stamping)], locks := locks)
    else if n == 2 then
      s.(db := moved, sessions := s.sessions[i := held.(pc := Closing, orderUndo := Replaced(was))], locks := locks)
    else if n == 3 then
      s.(db := moved, sessions := s.sessions[i := held.(pc := Notifying)], log := s.log + [i])
    else
      s.(db := moved, sessions := s.sessions[i := held.(pc := Finished)], log := s.log + [i],
         notified := if op.url == "" then s.notified else s.notified + [i])
  }

  lemma Locks(s: State, i: nat)
    requires Alone(s, i)
    ensures Steps(s, i, After(s, i, 0))
  {
    var none: map<Row, nat> := map[];
    assert none[OrderRow(s.sessions[i].op.order) := i] == map[OrderRow(s.sessions[i].op.order) := i];
    hide Stamp, Forward;
  }

  lemma Judges(s: State, i: nat)
    requires Alone(s, i)
    ensures Steps(After(s, i, 0), i, After(s, i, 1))
  {
    assert After(s, i, 1).sessions == Judge(After(s, i, 0), i).sessions;
    hide Stamp;
  }

  lemma Stamps(s: State, i: nat)
    requires Alone(s, i)
    ensures Steps(After(s, i, 1), i, After(s, i, 2))
  {
    assert After(s, i, 2).sessions == StampOrder(After(s, i, 1), i).sessions;
    hide Stamp, Forward;
  }

  lemma Commits(s: State, i: nat)
    requires Alone(s, i)
    ensures Steps(After(s, i, 2), i, After(s, i, 3))
  {
    assert After(s, i, 3).sessions == Commit(After(s, i, 2), i).sessions;
    assert Unlocked(After(s, i, 2).locks, i) == map[];
    hide Stamp, Forward;
  }

  lemma Notifies(s: State, i: nat)
    requires Alone(s, i)
    ensures Steps(After(s, i, 3), i, After(s, i, 4))
  {
    assert After(s, i, 4).sessions == Notify(After(s, i, 3), i).sessions;
    hide Stamp, Forward;
  }

  /** A run may go on by the five statements of a lone move. */
  lemma RunMoves(db: Db, ops: seq<Op>, run: seq<State>, i: nat) returns (longer: seq<State>)
    requires IsRun(db, ops, run) && Alone(run[|run| - 1], i)
    ensures IsRun(db, ops, longer) && longer[|longer| - 1] == After(run[|run| - 1], i, 4)
  {
    var s := run[|run| - 1];
    assert run != [];
    Locks(s, i);
    Judges(s, i);
    Stamps(s, i);
    Commits(s, i);
    Notifies(s, i);
    hide Steps, After, Alone, IsRun;
    longer := run;
    for n := 0 to 5
      invariant longer != [] && IsRun(db, ops, longer)
      invariant longer[|longer| - 1] == if n == 0 then s else After(s, i, n - 1)
    {
      assert Steps(longer[|longer| - 1], i, After(s, i, n));
      RunGoesOn(db, ops, longer, i, After(s, i, n));
      longer := longer + [After(s, i, n)];
    }
  }

  /** The first k calls are over, committed in that order, and the rest have not begun. */
  ghost predicate CallsSoFar(ops: seq<Op>, k: nat, s: State) {
    && k <= |ops| == |s.sessions| && s.locks == map[]
    && (forall i :: 0 <= i < |ops| ==> s.sessions[i].op == ops[i])
    && (forall i :: 0 <= i < k ==> s.sessions[i].pc.Finished?)
    && (forall i :: k <= i < |ops| ==> s.sessions[i] == NewSession(ops[i]))
    && |s.log| == k && (forall i :: 0 <= i < k ==> s.log[i] == i)
  }

  /** The order has made the first k moves, each with its audit entry, and is otherwise as it was. */
  ghost predicate MovedSoFar(was: Order, now: Order, k: nat)
    requires k <= |STOPS|
  {
    && now == was.(status := now.status, history := now.history)
    && now.status == (if k == 0 then Created else STOPS[k - 1])
    && |now.history| == |was.history| + k && was.history <= now.history
    && forall i :: 0 <= i < k ==>
         now.history[|was.history| + i] == Entry(Some(if i == 0 then Created else STOPS[i - 1]), STOPS[i], Restaurant)
  }

  /** Nothing else in the tables has changed. */
  ghost predicate OthersKept(db: Db, now: Db, order: Id) {
    && now.dishes == db.dishes && now.categories == db.categories && now.orders.Keys == db.orders.Keys
    && forall o | o in db.orders && o != order :: now.orders[o] == db.orders[o]
  }

  ghost predicate SoFar(db: Db, restaurant: Id, order: Id, url: string, k: nat, s: State) {
    && k <= |STOPS| && CallsSoFar(Moves(restaurant, order, url), k, s)
    && order in db.orders && OthersKept(db, s.db, order) && MovedSoFar(db.orders[order], s.db.orders[order], k)
  }

  lemma CallExtends(ops: seq<Op>, k: nat, s: State)
    requires CallsSoFar(ops, k, s) && k < |ops| && ops[k].ChangeStatus? && ops[k].order in s.db.orders
    ensures CallsSoFar(ops, k + 1, After(s, k, 4))
  {
  }

  lemma MoveExtends(was: Order, now: Order, k: nat)
    requires k < |STOPS| && MovedSoFar(was, now, k)
    ensures Forward(now.status, STOPS[k]) && MovedSoFar(was, Stamp(now, STOPS[k], Restaurant), k + 1)
  {
  }

  lemma Extends(db: Db, restaurant: Id, order: Id, url: string, k: nat, s: State)
    requires restaurant != 0 && order != 0 && order in db.orders && db.orders[order].restaurant == restaurant
    requires k < |STOPS| && SoFar(db, restaurant, order, url, k, s)
    ensures Alone(s, k) && SoFar(db, restaurant, order, url, k + 1, After(s, k, 4))
  {
    var ops := Moves(restaurant, order, url);
    assert s.sessions[k] == NewSession(ops[k]) && ops[k] == ChangeStatus(restaurant, order, STOPS[k], url);
    assert s.db.orders[order].restaurant == restaurant;
    CallExtends(ops, k, s);
    MoveExtends(db.orders[order], s.db.orders[order], k);
    hide CallsSoFar, MovedSoFar, Stamp, Forward, Moves;
  }

  /** From any tables: an order that its restaurant moves through all five stages is completed, by five
      committed calls, with one audit entry each, and nothing else in the tables has changed. */
  lemma WholeLifecycle(db: Db, restaurant: Id, order: Id, url: string) returns (run: seq<State>)
    requires restaurant != 0 && order != 0 && order in db.orders
    requires db.orders[order].restaurant == restaurant && db.orders[order].status == Created
    ensures IsRun(db, Moves(restaurant, order, url), run)
    ensures SoFar(db, restaurant, order, url, 5, run[|run| - 1])
    ensures run[|run| - 1].db.orders[order].status == Completed
  {
    var ops := Moves(restaurant, order, url);
    run := [Init(db, ops)];
    hide Alone, After;
    for k := 0 to |STOPS|
      invariant IsRun(db, ops, run) && SoFar(db, restaurant, order, url, k, run[|run| - 1])
    {
      Extends(db, restaurant, order, url, k, run[|run| - 1]);
      run := RunMoves(db, ops, run, k);
    }
  }
}
