/** Tangled mixes of calls do jam: two renames that swap names, and a ring of a checkout, a dish on its way
    into another category and the deletion of that category. A ring, once closed, stays closed until one
    of its members is interrupted. */
module Tangle {
  import opened Domain
  import opened Spec
  import opened Tables
  import opened Engine
  import opened EngineInvariant
  import opened EngineVisibility
  import opened EngineBuyer
  import opened EngineMover
  import opened EngineMenu
  import opened Serialisability
  import opened Waiting

  // ---------- a ring stays closed ----------

  /** What another session's step leaves alone: the waiting session and its rows, the row it waits for and
      that row's holder. */
  ghost predicate Undisturbed(s: State, i: nat, r: Row, s': State)
    requires i < |s.sessions|
  {
    && r in s.locks && s.locks[r] < |s.sessions|
    && |s'.sessions| == |s.sessions| && s'.sessions[i] == s.sessions[i]
    && s'.sessions[s.locks[r]] == s.sessions[s.locks[r]]
    && r in s'.locks && s'.locks[r] == s.locks[r] && RowKept(s.db, s'.db, r)
    && (forall h | h in Footprint(s.sessions[i]) :: RowKept(s.db, s'.db, h))
  }

  lemma OrderWaitStays(s: State, i: nat, r: Row, s': State)
    requires i < |s.sessions| && s.sessions[i].op.IsOrderOp() && Blocks(s, i, r) && Undisturbed(s, i, r, s')
    ensures Blocks(s', i, r)
  {
    hide Footprint;
  }

  lemma MenuWaitStays(s: State, i: nat, r: Row, s': State)
    requires Partner(s, i) && LocalAt(s, i) && Blocks(s, i, r) && Undisturbed(s, i, r, s')
    ensures Blocks(s', i, r)
  {
    var t := s.sessions[i];
    if t.pc.Checking? {
      assert Local(t, s.db);
      assert Target(t.op).Some? && Target(t.op).value in Footprint(t);
      assert RowKept(s.db, s'.db, Target(t.op).value);
    }
    hide Footprint, LocalAt, Vetted;
  }

  /** Somebody else's lock survives the step. */
  lemma LockStays(s: State, i: nat, s': State, r: Row)
    requires i < |s.sessions| == |s'.sessions| && LockStep(s, i, s') && r in s.locks && s.locks[r] != i
    ensures r in s'.locks && s'.locks[r] == s.locks[r]
  {
    hide Footprint;
  }

  lemma RowStays(s: State, i: nat, s': State, r: Row)
    requires i < |s.sessions| == |s'.sessions| && TableStep(s, i, s') && r in s.locks && s.locks[r] != i
    ensures RowKept(s.db, s'.db, r)
  {
    hide RowKept, Pending, Unused;
  }

  lemma OwnRowsStay(s: State, i: nat, s': State, m: nat)
    requires LocksOk(s) && i < |s.sessions| == |s'.sessions| && TableStep(s, i, s') && m < |s.sessions| && m != i
    ensures forall h | h in Footprint(s.sessions[m]) :: RowKept(s.db, s'.db, h)
  {
    hide Footprint, RowKept, TableStep;
    forall h | h in Footprint(s.sessions[m]) ensures RowKept(s.db, s'.db, h) {
      assert h in s.locks && s.locks[h] == m;
      RowStays(s, i, s', h);
    }
  }

  lemma SessionStays(s: State, i: nat, s': State, m: nat)
    requires i < |s.sessions| && OwnStep(s, i, s') && m < |s.sessions| && m != i
    ensures |s'.sessions| == |s.sessions| && s'.sessions[m] == s.sessions[m]
  {
    hide LocalAt;
  }

  lemma HolderExists(s: State, r: Row)
    requires LocksOk(s) && r in s.locks
    ensures s.locks[r] < |s.sessions|
  {
    hide Footprint;
  }

  lemma StepUndisturbs(s: State, i: nat, s': State, m: nat, r: Row)
    requires Inv(s) && i < |s.sessions| && GoodStep(s, i, s') && m < |s.sessions| && m != i
    requires r in s.locks && s.locks[r] != i
    ensures Undisturbed(s, m, r, s')
  {
    hide LocksOk, AllLocal, FreshOk, WellFormed, OwnStep, LockStep, TableStep, Footprint, RowKept;
    HolderExists(s, r);
    SessionStays(s, i, s', m);
    SessionStays(s, i, s', s.locks[r]);
    LockStays(s, i, s', r);
    RowStays(s, i, s', r);
    OwnRowsStay(s, i, s', m);
  }

  lemma MemberStillWaits(s: State, members: set<nat>, i: nat, s': State, m: nat)
    requires Inv(s) && i < |s.sessions| && GoodStep(s, i, s') && i !in members
    requires m in members && m < |s.sessions| && RingWait(s, m, members)
    ensures m < |s'.sessions| && RingWait(s', m, members)
  {
    var r :| Blocks(s, m, r) && r in s.locks && s.locks[r] in members;
    assert LocalAt(s, m);
    hide LocksOk, AllLocal, FreshOk, WellFormed, Visible, LocalAt, GoodStep, Blocks;
    StepUndisturbs(s, i, s', m, r);
    if s.sessions[m].op.IsOrderOp() {
      OrderWaitStays(s, m, r, s');
    } else {
      MenuWaitStays(s, m, r, s');
    }
    assert Blocks(s', m, r) && r in s'.locks && s'.locks[r] in members;
  }

  lemma OthersStepInRing(s: State, members: set<nat>, i: nat, s': State)
    requires Inv(s) && Ring(s, members) && Steps(s, i, s') && i !in members
    ensures Ring(s', members)
  {
    RingIs(s, members);
    assert i < |s.sessions|;
    hide *;
    StepIsAtomic(s, i, s');
    forall m | m in members ensures m < |s'.sessions| && RingWait(s', m, members) {
      MemberStillWaits(s, members, i, s', m);
    }
    RingIs(s', members);
  }

  /** Nothing but the interruption of a member opens a ring. */
  lemma RingStays(s: State, members: set<nat>, i: nat, s': State)
    requires Inv(s) && Ring(s, members) && Steps(s, i, s')
    ensures i !in members ==> Ring(s', members)
    ensures i in members ==> i < |s.sessions| && Interrupt(s, i) == Some(s')
  {
    assert i < |s.sessions| && (Advance(s, i) == Some(s') || Interrupt(s, i) == Some(s'));
    assert Advance(s, i) == Some(s') ==> CanStep(s, i);
    hide *;
    if i in members {
      MemberCannotStep(s, members, i);
    } else {
      OthersStepInRing(s, members, i, s');
    }
  }

  // ---------- kinds of calls ----------

  datatype Kind =
    | SmallCheckout | LargeCheckout | OrderMove
    | CategoryInsert | CategoryRename | CategoryDelete
    | DishInsert | DishRefile | DishEdit | DishDelete

  function KindOf(op: Op): Kind {
    match op
    case Checkout(input, _, _) => if |input.lines| >= 2 then LargeCheckout else SmallCheckout
    case ChangeStatus(_, _, _, _) => OrderMove
    case CustomerCancel(_, _, _) => OrderMove
    case AddCategory(_, _, _) => CategoryInsert
    case RenameCategory(_, _, _) => CategoryRename
    case DropCategory(_, _) => CategoryDelete
    case AddItem(_, _) => DishInsert
    case EditItem(_, _, patch) => if patch.category.Some? then DishRefile else DishEdit
    case DropItem(_, _) => DishDelete
  }

  function KindsOf(ops: seq<Op>): (kinds: seq<Kind>) {
    seq(|ops|, i requires 0 <= i < |ops| => KindOf(ops[i]))
  }

  ghost predicate TwoRenames(kinds: seq<Kind>) {
    exists i, j :: 0 <= i < j < |kinds| && kinds[i] == CategoryRename && kinds[j] == CategoryRename
  }

  /** The mixes that can jam. */
  ghost predicate TangledKinds(kinds: seq<Kind>) {
    TwoRenames(kinds) || (LargeCheckout in kinds && DishRefile in kinds && CategoryDelete in kinds)
  }

  lemma TangledByKind(ops: seq<Op>)
    ensures Tangled(ops) <==> TangledKinds(KindsOf(ops))
  {
    var kinds := KindsOf(ops);
    assert forall i :: 0 <= i < |ops| ==> kinds[i] == KindOf(ops[i]);
    assert (exists i :: 0 <= i < |ops| && BuysMany(ops[i])) <==> LargeCheckout in kinds by {
      if i :| 0 <= i < |ops| && BuysMany(ops[i]) { assert kinds[i] == LargeCheckout; }
      if i :| 0 <= i < |kinds| && kinds[i] == LargeCheckout { assert BuysMany(ops[i]); }
    }
    assert (exists i :: 0 <= i < |ops| && Refiles(ops[i])) <==> DishRefile in kinds by {
      if i :| 0 <= i < |ops| && Refiles(ops[i]) { assert kinds[i] == DishRefile; }
      if i :| 0 <= i < |kinds| && kinds[i] == DishRefile { assert Refiles(ops[i]); }
    }
    assert (exists i :: 0 <= i < |ops| && ops[i].DropCategory?) <==> CategoryDelete in kinds by {
      if i :| 0 <= i < |ops| && ops[i].DropCategory? { assert kinds[i] == CategoryDelete; }
      if i :| 0 <= i < |kinds| && kinds[i] == CategoryDelete { assert ops[i].DropCategory?; }
    }
    assert TwoRenames(kinds) <==>
        exists i, j :: 0 <= i < j < |ops| && ops[i].RenameCategory? && ops[j].RenameCategory? by {
      if i, j :| 0 <= i < j < |kinds| && kinds[i] == CategoryRename && kinds[j] == CategoryRename {
        assert ops[i].RenameCategory? && ops[j].RenameCategory?;
      }
      if i, j :| 0 <= i < j < |ops| && ops[i].RenameCategory? && ops[j].RenameCategory? {
        assert kinds[i] == CategoryRename && kinds[j] == CategoryRename;
      }
    }
  }

  /** A run of calls of these kinds that ends in a ring. */
  ghost predicate Jams(kinds: seq<Kind>, db: Db, ops: seq<Op>, run: seq<State>, members: set<nat>) {
    Admissible(db, ops) && KindsOf(ops) == kinds && IsRun(db, ops, run) && Ring(run[|run| - 1], members)
  }

  lemma JamsOnlyTangled(kinds: seq<Kind>, db: Db, ops: seq<Op>, run: seq<State>, members: set<nat>)
    requires Jams(kinds, db, ops, run, members)
    ensures TangledKinds(kinds)
  {
    assert run != [];
    RunGood(db, ops, run);
    TangledByKind(ops);
    assert Serves(ops, run[|run| - 1]);
    if !Tangled(ops) {
      NoRing(ops, run[|run| - 1], members);
    }
  }

  // ---------- the stage ----------

  /** One restaurant, two categories, a dish in each. */
  const STAGE: Db := Db(
    map[2 := Category(1, "x"), 3 := Category(1, "y")],
    map[4 := Dish(1, 3, "", "", 0, 9, true), 5 := Dish(1, 2, "", "", 0, 9, true)],
    map[])

  lemma StageOk()
    ensures WellFormed(STAGE)
  {
  }

  /** Some call of the given kind, with an identifier of its own if it brings one. */
  function Extra(kind: Kind, id: Id): Op {
    match kind
    case SmallCheckout => Checkout(CheckoutInput(6, 1, [], "a", ""), id, None)
    case LargeCheckout =>
      Checkout(CheckoutInput(6, 1, [Line(4, 1), Line(5, 1)], "a", ""), id, Some(RestaurantRow(true, "")))
    case OrderMove => CustomerCancel(6, 7, "")
    case CategoryInsert => AddCategory(1, id, "z")
    case CategoryRename => RenameCategory(1, 2, "z")
    case CategoryDelete => DropCategory(1, 3)
    case DishInsert => AddItem(id, Dish(1, 2, "", "", 0, 0, true))
    case DishRefile => EditItem(1, 5, Patch(Some(3), None, None, None, None, None))
    case DishEdit => EditItem(1, 5, NoChange)
    case DishDelete => DropItem(1, 4)
  }

  function Extras(kinds: seq<Kind>): (ops: seq<Op>) {
    seq(|kinds|, i requires 0 <= i < |kinds| => Extra(kinds[i], 100 + i))
  }

  lemma ExtrasOk(kinds: seq<Kind>)
    ensures Admissible(STAGE, Extras(kinds)) && KindsOf(Extras(kinds)) == kinds
  {
    StageOk();
    var ops := Extras(kinds);
    forall i | 0 <= i < |ops| ensures KindOf(ops[i]) == kinds[i] && NewIds(ops[i]) <= {100 + i} {}
  }

  /** A state in which the calls in `cast` have got somewhere and all others have not begun. */
  function Scene(ops: seq<Op>, cast: map<nat, Session>, locks: map<Row, nat>): State {
    State(STAGE, locks,
          seq(|ops|, i requires 0 <= i < |ops| => if i in cast then cast[i] else NewSession(ops[i])), [], [])
  }

  lemma SceneStarts(ops: seq<Op>)
    ensures Init(STAGE, ops) == Scene(ops, map[], map[])
  {
    assert Init(STAGE, ops).sessions == Scene(ops, map[], map[]).sessions;
  }

  lemma SceneMoves(ops: seq<Op>, cast: map<nat, Session>, locks: map<Row, nat>, i: nat, t: Session)
    requires i < |ops|
    ensures Put(Scene(ops, cast, locks), i, t) == Scene(ops, cast[i := t], locks)
  {
    assert Put(Scene(ops, cast, locks), i, t).sessions == Scene(ops, cast[i := t], locks).sessions;
  }

  /** Some run of these calls gets here. */
  ghost predicate Gets(ops: seq<Op>, s: State) {
    exists run :: RunTo(ops, run, s)
  }

  ghost predicate RunTo(ops: seq<Op>, run: seq<State>, s: State) {
    IsRun(STAGE, ops, run) && run[|run| - 1] == s
  }

  lemma GetsStarted(ops: seq<Op>)
    ensures Gets(ops, Scene(ops, map[], map[]))
  {
    SceneStarts(ops);
    assert RunTo(ops, [Init(STAGE, ops)], Scene(ops, map[], map[]));
  }

  lemma GetsOn(ops: seq<Op>, s: State, i: nat, s': State)
    requires Gets(ops, s) && Steps(s, i, s')
    ensures Gets(ops, s')
  {
    var run :| RunTo(ops, run, s);
    assert Next(s, s');
    hide Steps, Init;
    assert RunTo(ops, run + [s'], s');
  }

  // ---------- how the calls get there ----------

  /** A rename or a deletion passes its ownership check. */
  lemma MenuBegins(ops: seq<Op>, cast: map<nat, Session>, locks: map<Row, nat>, i: nat)
    requires i < |ops| && i !in cast && (ops[i].RenameCategory? || ops[i].DropCategory?)
    requires MenuFault(STAGE, ops[i]).None?
    ensures Steps(Scene(ops, cast, locks), i,
                  Scene(ops, cast[i := NewSession(ops[i]).(pc := Writing, known := Observed(ops[i]))], locks))
  {
    var s := Scene(ops, cast, locks);
    var t := NewSession(ops[i]).(pc := Writing, known := Observed(ops[i]));
    assert s.sessions[i] == NewSession(ops[i]);
    assert {} + Observed(ops[i]) == Observed(ops[i]);
    assert BeginMenu(s, i) == Put(s, i, t);
    SceneMoves(ops, cast, locks, i, t);
  }

  /** An update or a delete changes its row and goes on to its constraint check. */
  lemma MenuClaims(ops: seq<Op>, cast: map<nat, Session>, locks: map<Row, nat>, i: nat)
    requires i < |ops| && i in cast && cast[i].op == ops[i] && !ops[i].IsOrderOp() && cast[i].pc.Writing?
    requires Target(ops[i]).Some? && Target(ops[i]).value !in locks && ChecksLater(STAGE, ops[i])
    ensures Steps(Scene(ops, cast, locks), i,
                  Scene(ops, cast[i := cast[i].(pc := Checking)], locks[Target(ops[i]).value := i]))
  {
    var s := Scene(ops, cast, locks);
    var t := cast[i].(pc := Checking);
    assert s.sessions[i] == cast[i];
    assert Goto(s, i, Checking) == Put(s, i, t);
    SceneMoves(ops, cast, locks, i, t);
  }

  /** A menu call by its program counter. */
  function Menu(op: Op, pc: Pc): Session {
    NewSession(op).(pc := pc, known := Observed(op))
  }

  lemma MenuSteps(ops: seq<Op>, cast: map<nat, Session>, locks: map<Row, nat>, i: nat)
    requires i < |ops| && i !in cast && (ops[i].RenameCategory? || ops[i].DropCategory?)
    requires MenuFault(STAGE, ops[i]).None? && ChecksLater(STAGE, ops[i]) && Target(ops[i]).value !in locks
    ensures Steps(Scene(ops, cast, locks), i, Scene(ops, cast[i := Menu(ops[i], Writing)], locks))
    ensures Steps(Scene(ops, cast[i := Menu(ops[i], Writing)], locks), i,
                  Scene(ops, cast[i := Menu(ops[i], Checking)], locks[Target(ops[i]).value := i]))
  {
    var cast1 := cast[i := Menu(ops[i], Writing)];
    MenuBegins(ops, cast, locks, i);
    MenuClaims(ops, cast1, locks, i);
    assert cast1[i := Menu(ops[i], Checking)] == cast[i := Menu(ops[i], Checking)];
    hide Steps, Scene, MenuFault, ChecksLater;
  }

  /** A rename or a deletion gets to its constraint check. */
  lemma MenuGets(ops: seq<Op>, cast: map<nat, Session>, locks: map<Row, nat>, i: nat)
    requires i < |ops| && i !in cast && (ops[i].RenameCategory? || ops[i].DropCategory?)
    requires MenuFault(STAGE, ops[i]).None? && ChecksLater(STAGE, ops[i]) && Target(ops[i]).value !in locks
    requires Gets(ops, Scene(ops, cast, locks))
    ensures Gets(ops, Scene(ops, cast[i := Menu(ops[i], Checking)], locks[Target(ops[i]).value := i]))
  {
    assert Target(ops[i]).Some?;
    hide *;
    MenuSteps(ops, cast, locks, i);
    GetsOn(ops, Scene(ops, cast, locks), i, Scene(ops, cast[i := Menu(ops[i], Writing)], locks));
    GetsOn(ops, Scene(ops, cast[i := Menu(ops[i], Writing)], locks), i,
           Scene(ops, cast[i := Menu(ops[i], Checking)], locks[Target(ops[i]).value := i]));
  }

  // ---------- two renames ----------

  /** Everybody else's calls, and two renames that swap the names of the two categories. */
  function SwapOps(kinds: seq<Kind>, a: nat, b: nat): (ops: seq<Op>)
    requires a < |kinds| && b < |kinds|
  {
    Extras(kinds)[a := RenameCategory(1, 2, "y")][b := RenameCategory(1, 3, "x")]
  }

  lemma SwapOpsOk(kinds: seq<Kind>, a: nat, b: nat)
    requires a < b < |kinds| && kinds[a] == CategoryRename && kinds[b] == CategoryRename
    ensures Admissible(STAGE, SwapOps(kinds, a, b)) && KindsOf(SwapOps(kinds, a, b)) == kinds
  {
    ExtrasOk(kinds);
    var plain, ops := Extras(kinds), SwapOps(kinds, a, b);
    forall i | 0 <= i < |ops| ensures NewIds(ops[i]) == NewIds(plain[i]) && KindOf(ops[i]) == kinds[i] {
      assert KindsOf(plain)[i] == kinds[i];
    }
    hide WellFormed, NewIds, KindOf, Extras, SwapOps;
  }

  function SwapScene(ops: seq<Op>, a: nat, b: nat): State
    requires a < |ops| && b < |ops|
  {
    var none: map<nat, Session> := map[];
    var free: map<Row, nat> := map[];
    Scene(ops, none[a := Menu(ops[a], Checking)][b := Menu(ops[b], Checking)],
          free[CategoryRow(2) := a][CategoryRow(3) := b])
  }

  lemma SwapGets(ops: seq<Op>, a: nat, b: nat)
    requires a < |ops| && b < |ops| && a != b
    requires ops[a] == RenameCategory(1, 2, "y") && ops[b] == RenameCategory(1, 3, "x")
    ensures Gets(ops, SwapScene(ops, a, b))
  {
    var none: map<nat, Session> := map[];
    var free: map<Row, nat> := map[];
    assert MenuFault(STAGE, ops[a]).None? && ChecksLater(STAGE, ops[a]) && Target(ops[a]) == Some(CategoryRow(2));
    assert MenuFault(STAGE, ops[b]).None? && ChecksLater(STAGE, ops[b]) && Target(ops[b]) == Some(CategoryRow(3));
    hide Scene, Gets, Menu, MenuFault, ChecksLater;
    GetsStarted(ops);
    MenuGets(ops, none, free, a);
    MenuGets(ops, none[a := Menu(ops[a], Checking)], free[CategoryRow(2) := a], b);
  }

  lemma SwapRing(ops: seq<Op>, a: nat, b: nat)
    requires a < |ops| && b < |ops| && a != b
    requires ops[a] == RenameCategory(1, 2, "y") && ops[b] == RenameCategory(1, 3, "x")
    ensures Ring(SwapScene(ops, a, b), {a, b})
  {
    var s := SwapScene(ops, a, b);
    assert s.sessions[a] == Menu(ops[a], Checking) && s.sessions[b] == Menu(ops[b], Checking);
    assert CategoryRow(3) in CheckedRows(s.db, ops[a]);
    assert CategoryRow(2) in CheckedRows(s.db, ops[b]);
    assert Blocks(s, a, CategoryRow(3)) && Blocks(s, b, CategoryRow(2));
    assert RingWait(s, a, {a, b}) && RingWait(s, b, {a, b});
  }

  lemma RenamesJam(kinds: seq<Kind>) returns (ops: seq<Op>, run: seq<State>, members: set<nat>)
    requires TwoRenames(kinds)
    ensures Jams(kinds, STAGE, ops, run, members)
  {
    var a, b :| 0 <= a < b < |kinds| && kinds[a] == CategoryRename && kinds[b] == CategoryRename;
    ops := SwapOps(kinds, a, b);
    members := {a, b};
    SwapOpsOk(kinds, a, b);
    assert ops[a] == RenameCategory(1, 2, "y") && ops[b] == RenameCategory(1, 3, "x");
    hide Ring, IsRun, Admissible, SwapScene, SwapOps;
    SwapGets(ops, a, b);
    SwapRing(ops, a, b);
    run :| RunTo(ops, run, SwapScene(ops, a, b));
  }

  // ---------- a checkout, a refiled dish, a deleted category ----------

  /** The three calls: p buys dishes 4 and 5, q moves dish 5 into category 3, r deletes category 3. */
  ghost predicate Trio(ops: seq<Op>, p: nat, q: nat, r: nat) {
    && p < |ops| && q < |ops| && r < |ops| && p != q && q != r && p != r
    && ops[p] == Extra(LargeCheckout, 100 + p) && ops[q] == Extra(DishRefile, 100 + q)
    && ops[r] == Extra(CategoryDelete, 100 + r)
  }

  lemma BuyerFine(op: Op, id: Id)
    requires op == Extra(LargeCheckout, id)
    ensures EntryFault(op.input, op.sample).None? && Wanted(op.input.lines) == map[4 := 1, 5 := 1]
  {
    assert op.input.address[0] == 'a';
    var lines := op.input.lines;
    assert lines[..1] == [Line(4, 1)] && lines[..1][..0] == [];
    assert ValidLines(lines);
  }

  lemma FourFive()
    ensures Ascending({4, 5}) == [4, 5]
  {
    AscendingIs({4, 5});
    AscendsUnique(Ascending({4, 5}), [4, 5]);
  }

  function Buyer(op: Op, pc: Pc, rows: seq<Fetched>, known: set<Id>): Session {
    NewSession(op).(pc := pc, rows := rows, known := known)
  }

  lemma BuyerBegins(ops: seq<Op>, p: nat)
    requires p < |ops| && ops[p] == Extra(LargeCheckout, 100 + p)
    ensures Steps(Scene(ops, map[], map[]), p, Scene(ops, map[p := Buyer(ops[p], Scanning, [], {})], map[]))
  {
    var s := Scene(ops, map[], map[]);
    var t := Buyer(ops[p], Scanning, [], {});
    BuyerFine(ops[p], 100 + p);
    assert s.sessions[p] == NewSession(ops[p]);
    hide EntryFault, Wanted;
    assert BeginCheckout(s, p) == Put(s, p, t);
    SceneMoves(ops, map[], map[], p, t);
  }

  /** The locking SELECT of the buyer finds both dishes. */
  lemma BuyerFinds(ops: seq<Op>, p: nat)
    requires p < |ops| && ops[p] == Extra(LargeCheckout, 100 + p)
    ensures Wanted(ops[p].input.lines).Keys * STAGE.dishes.Keys == {4, 5} && Ascending({4, 5}) == [4, 5]
  {
    BuyerFine(ops[p], 100 + p);
    FourFive();
    assert map[4 := 1, 5 := 1].Keys == {4, 5} && STAGE.dishes.Keys == {4, 5};
    hide Wanted, Ascending, Extra;
  }

  /** The locking SELECT of a checkout that has seen nothing yet. */
  lemma ScanIs(s: State, p: nat, found: set<Id>, todo: seq<Id>)
    requires p < |s.sessions| && s.sessions[p].op.Checkout? && s.sessions[p].pc.Scanning? && s.sessions[p].known == {}
    requires Wanted(s.sessions[p].op.input.lines).Keys * s.db.dishes.Keys == found && Ascending(found) == todo
    ensures Steps(s, p, Put(s, p, s.sessions[p].(pc := Locking(todo), known := found)))
  {
    var none: set<Id> := {};
    assert none + found == found;
    hide Wanted, Ascending;
  }

  lemma BuyerScans(ops: seq<Op>, p: nat)
    requires p < |ops| && ops[p] == Extra(LargeCheckout, 100 + p)
    ensures Steps(Scene(ops, map[p := Buyer(ops[p], Scanning, [], {})], map[]), p,
                  Scene(ops, map[p := Buyer(ops[p], Locking([4, 5]), [], {4, 5})], map[]))
  {
    var cast: map<nat, Session> := map[p := Buyer(ops[p], Scanning, [], {})];
    var s := Scene(ops, cast, map[]);
    var t := Buyer(ops[p], Locking([4, 5]), [], {4, 5});
    BuyerFinds(ops, p);
    assert s.sessions[p] == cast[p] && s.db == STAGE && ops[p].Checkout?;
    SceneMoves(ops, cast, map[], p, t);
    assert cast[p := t] == map[p := t];
    hide Wanted, Ascending, Scene, Extra, STAGE;
    ScanIs(s, p, {4, 5}, [4, 5]);
  }

  lemma BuyerLocks(ops: seq<Op>, p: nat)
    requires p < |ops| && ops[p] == Extra(LargeCheckout, 100 + p)
    ensures Steps(Scene(ops, map[p := Buyer(ops[p], Locking([4, 5]), [], {4, 5})], map[]), p,
                  Scene(ops, map[p := Buyer(ops[p], Locking([5]), [Fetched(4, STAGE.dishes[4])], {4, 5})],
                        map[DishRow(4) := p]))
  {
    var cast: map<nat, Session> := map[p := Buyer(ops[p], Locking([4, 5]), [], {4, 5})];
    var s := Scene(ops, cast, map[]);
    var t := Buyer(ops[p], Locking([5]), [Fetched(4, STAGE.dishes[4])], {4, 5});
    assert s.sessions[p] == cast[p];
    assert [4, 5][1..] == [5];
    var none: seq<Fetched> := [];
    assert none + [Fetched(4, STAGE.dishes[4])] == [Fetched(4, STAGE.dishes[4])];
    SceneMoves(ops, cast, map[], p, t);
    assert cast[p := t] == map[p := t];
    var free: map<Row, nat> := map[];
    assert free[DishRow(4) := p] == map[DishRow(4) := p];
    assert AdvanceCheckout(s, p) == Some(Put(s, p, t).(locks := map[DishRow(4) := p]));
  }

  /** The refiling passes both of its ownership checks. */
  lemma RefilerChecks(ops: seq<Op>, cast: map<nat, Session>, locks: map<Row, nat>, q: nat)
    requires q < |ops| && q !in cast && ops[q] == Extra(DishRefile, 100 + q)
    ensures Steps(Scene(ops, cast, locks), q, Scene(ops, cast[q := Menu(ops[q], Vetting)], locks))
    ensures Steps(Scene(ops, cast[q := Menu(ops[q], Vetting)], locks), q,
                  Scene(ops, cast[q := Menu(ops[q], Writing)], locks))
  {
    var s := Scene(ops, cast, locks);
    assert s.sessions[q] == NewSession(ops[q]);
    assert {} + Observed(ops[q]) == Observed(ops[q]);
    assert BeginMenu(s, q) == Put(s, q, Menu(ops[q], Vetting));
    SceneMoves(ops, cast, locks, q, Menu(ops[q], Vetting));
    var cast1 := cast[q := Menu(ops[q], Vetting)];
    var s1 := Scene(ops, cast1, locks);
    assert s1.sessions[q] == Menu(ops[q], Vetting);
    assert Vet(s1, q) == Put(s1, q, Menu(ops[q], Writing));
    SceneMoves(ops, cast1, locks, q, Menu(ops[q], Writing));
    assert cast1[q := Menu(ops[q], Writing)] == cast[q := Menu(ops[q], Writing)];
  }

  function BoughtOne(ops: seq<Op>, p: nat): map<nat, Session>
    requires p < |ops|
  {
    map[p := Buyer(ops[p], Locking([5]), [Fetched(4, STAGE.dishes[4])], {4, 5})]
  }

  lemma BuyerGets(ops: seq<Op>, p: nat)
    requires p < |ops| && ops[p] == Extra(LargeCheckout, 100 + p)
    ensures Gets(ops, Scene(ops, BoughtOne(ops, p), map[DishRow(4) := p]))
  {
    BuyerBegins(ops, p);
    BuyerScans(ops, p);
    BuyerLocks(ops, p);
    hide Steps, Scene, Gets, Buyer;
    GetsStarted(ops);
    GetsOn(ops, Scene(ops, map[], map[]), p, Scene(ops, map[p := Buyer(ops[p], Scanning, [], {})], map[]));
    GetsOn(ops, Scene(ops, map[p := Buyer(ops[p], Scanning, [], {})], map[]), p,
           Scene(ops, map[p := Buyer(ops[p], Locking([4, 5]), [], {4, 5})], map[]));
    GetsOn(ops, Scene(ops, map[p := Buyer(ops[p], Locking([4, 5]), [], {4, 5})], map[]), p,
           Scene(ops, BoughtOne(ops, p), map[DishRow(4) := p]));
  }

  lemma RefilerClaims(ops: seq<Op>, cast: map<nat, Session>, locks: map<Row, nat>, q: nat)
    requires q < |ops| && q !in cast && ops[q] == Extra(DishRefile, 100 + q) && DishRow(5) !in locks
    ensures Steps(Scene(ops, cast[q := Menu(ops[q], Writing)], locks), q,
                  Scene(ops, cast[q := Menu(ops[q], Checking)], locks[DishRow(5) := q]))
  {
    var cast1 := cast[q := Menu(ops[q], Writing)];
    MenuClaims(ops, cast1, locks, q);
    assert cast1[q := Menu(ops[q], Checking)] == cast[q := Menu(ops[q], Checking)];
    hide Steps, Scene, ChecksLater;
  }

  lemma RefilerGets(ops: seq<Op>, cast: map<nat, Session>, locks: map<Row, nat>, q: nat)
    requires q < |ops| && q !in cast && ops[q] == Extra(DishRefile, 100 + q) && DishRow(5) !in locks
    requires Gets(ops, Scene(ops, cast, locks))
    ensures Gets(ops, Scene(ops, cast[q := Menu(ops[q], Checking)], locks[DishRow(5) := q]))
  {
    hide *;
    RefilerChecks(ops, cast, locks, q);
    RefilerClaims(ops, cast, locks, q);
    var e1, e2, e3 :=
      cast[q := Menu(ops[q], Vetting)], cast[q := Menu(ops[q], Writing)], cast[q := Menu(ops[q], Checking)];
    GetsOn(ops, Scene(ops, cast, locks), q, Scene(ops, e1, locks));
    GetsOn(ops, Scene(ops, e1, locks), q, Scene(ops, e2, locks));
    GetsOn(ops, Scene(ops, e2, locks), q, Scene(ops, e3, locks[DishRow(5) := q]));
  }

  lemma DeleterGets(ops: seq<Op>, cast: map<nat, Session>, locks: map<Row, nat>, r: nat)
    requires r < |ops| && r !in cast && ops[r] == Extra(CategoryDelete, 100 + r) && CategoryRow(3) !in locks
    requires Gets(ops, Scene(ops, cast, locks))
    ensures Gets(ops, Scene(ops, cast[r := Menu(ops[r], Checking)], locks[CategoryRow(3) := r]))
  {
    assert MenuFault(STAGE, ops[r]).None? && ChecksLater(STAGE, ops[r]) && Target(ops[r]) == Some(CategoryRow(3));
    hide Scene, Gets, Menu, MenuFault, ChecksLater;
    MenuGets(ops, cast, locks, r);
  }

  /** All three are waiting. */
  function TrioScene(ops: seq<Op>, p: nat, q: nat, r: nat): State
    requires p < |ops| && q < |ops| && r < |ops|
  {
    Scene(ops, BoughtOne(ops, p)[q := Menu(ops[q], Checking)][r := Menu(ops[r], Checking)],
          map[DishRow(4) := p][DishRow(5) := q][CategoryRow(3) := r])
  }

  lemma TrioGets(ops: seq<Op>, p: nat, q: nat, r: nat)
    requires Trio(ops, p, q, r)
    ensures Gets(ops, TrioScene(ops, p, q, r))
  {
    hide Scene, Gets, Extra;
    var l1: map<Row, nat> := map[DishRow(4) := p];
    BuyerGets(ops, p);
    RefilerGets(ops, BoughtOne(ops, p), l1, q);
    DeleterGets(ops, BoughtOne(ops, p)[q := Menu(ops[q], Checking)], l1[DishRow(5) := q], r);
  }

  lemma TrioShape(ops: seq<Op>, p: nat, q: nat, r: nat)
    requires Trio(ops, p, q, r)
    ensures var s := TrioScene(ops, p, q, r);
            && |s.sessions| == |ops| && s.db == STAGE
            && s.locks == map[DishRow(4) := p, DishRow(5) := q, CategoryRow(3) := r]
            && s.sessions[p].op == ops[p] && s.sessions[p].pc == Locking([5])
            && s.sessions[q].op == ops[q] && s.sessions[q].pc.Checking?
            && s.sessions[r].op == ops[r] && s.sessions[r].pc.Checking?
  {
    hide Extra;
  }

  lemma BuyerBlocks(ops: seq<Op>, p: nat, q: nat, r: nat)
    requires Trio(ops, p, q, r)
    ensures Blocks(TrioScene(ops, p, q, r), p, DishRow(5))
  {
    TrioShape(ops, p, q, r);
    hide TrioScene, Scene, CheckedRows, KindOf;
  }

  lemma RefilerBlocks(ops: seq<Op>, p: nat, q: nat, r: nat)
    requires Trio(ops, p, q, r)
    ensures Blocks(TrioScene(ops, p, q, r), q, CategoryRow(3))
  {
    TrioShape(ops, p, q, r);
    hide TrioScene, Scene, KindOf;
    assert CategoryRow(3) in CheckedRows(STAGE, ops[q]);
  }

  lemma DeleterBlocks(ops: seq<Op>, p: nat, q: nat, r: nat)
    requires Trio(ops, p, q, r)
    ensures Blocks(TrioScene(ops, p, q, r), r, DishRow(4))
  {
    TrioShape(ops, p, q, r);
    hide TrioScene, Scene, KindOf;
    assert DishRow(4) in CheckedRows(STAGE, ops[r]);
  }

  lemma WaitsInRing(s: State, i: nat, r: Row, members: set<nat>)
    requires i < |s.sessions| && Blocks(s, i, r) && r in s.locks && s.locks[r] in members
    ensures RingWait(s, i, members)
  {
    hide Blocks;
  }

  lemma TrioLocks(ops: seq<Op>, p: nat, q: nat, r: nat)
    requires Trio(ops, p, q, r)
    ensures var s := TrioScene(ops, p, q, r);
            && |s.sessions| == |ops| && p < |ops| && q < |ops| && r < |ops|
            && DishRow(4) in s.locks && s.locks[DishRow(4)] == p
            && DishRow(5) in s.locks && s.locks[DishRow(5)] == q
            && CategoryRow(3) in s.locks && s.locks[CategoryRow(3)] == r
  {
    TrioShape(ops, p, q, r);
    hide TrioScene, Scene, Extra;
  }

  lemma TrioRing(ops: seq<Op>, p: nat, q: nat, r: nat)
    requires Trio(ops, p, q, r)
    ensures Ring(TrioScene(ops, p, q, r), {p, q, r})
  {
    hide Trio, TrioScene, Scene, Blocks, RingWait;
    TrioLocks(ops, p, q, r);
    BuyerBlocks(ops, p, q, r);
    RefilerBlocks(ops, p, q, r);
    DeleterBlocks(ops, p, q, r);
    var s := TrioScene(ops, p, q, r);
    WaitsInRing(s, p, DishRow(5), {p, q, r});
    WaitsInRing(s, q, CategoryRow(3), {p, q, r});
    WaitsInRing(s, r, DishRow(4), {p, q, r});
  }

  lemma TrioRuns(ops: seq<Op>, p: nat, q: nat, r: nat) returns (run: seq<State>)
    requires Trio(ops, p, q, r)
    ensures IsRun(STAGE, ops, run) && Ring(run[|run| - 1], {p, q, r})
  {
    assert p < |ops| && q < |ops| && r < |ops|;
    hide Trio, Ring, IsRun, TrioScene;
    TrioGets(ops, p, q, r);
    TrioRing(ops, p, q, r);
    run :| RunTo(ops, run, TrioScene(ops, p, q, r));
    assert run != [] by { RunIsNotEmpty(ops, run); }
  }

  lemma RunIsNotEmpty(ops: seq<Op>, run: seq<State>)
    requires IsRun(STAGE, ops, run)
    ensures run != []
  {
  }

  lemma ExtrasTrio(kinds: seq<Kind>, p: nat, q: nat, r: nat)
    requires p < |kinds| && q < |kinds| && r < |kinds|
    requires kinds[p] == LargeCheckout && kinds[q] == DishRefile && kinds[r] == CategoryDelete
    ensures Trio(Extras(kinds), p, q, r)
  {
    hide Extra;
  }

  lemma TrioJams(kinds: seq<Kind>) returns (ops: seq<Op>, run: seq<State>, members: set<nat>)
    requires LargeCheckout in kinds && DishRefile in kinds && CategoryDelete in kinds
    ensures Jams(kinds, STAGE, ops, run, members)
  {
    var p :| 0 <= p < |kinds| && kinds[p] == LargeCheckout;
    var q :| 0 <= q < |kinds| && kinds[q] == DishRefile;
    var r :| 0 <= r < |kinds| && kinds[r] == CategoryDelete;
    ops := Extras(kinds);
    members := {p, q, r};
    hide Ring, IsRun, Admissible, Extras, Trio, Extra, STAGE, KindsOf;
    ExtrasOk(kinds);
    ExtrasTrio(kinds, p, q, r);
    run := TrioRuns(ops, p, q, r);
    assert run != [] by { RunIsNotEmpty(ops, run); }
  }

  /** Exactly the tangled mixes can jam: for every list of kinds of calls there are a database, calls of
      those kinds and a run that ends in a ring, if and only if the list has two renames, or a checkout of
      several dishes together with a refiled dish and a deleted category. */
  lemma MixesThatJam(kinds: seq<Kind>)
    ensures (exists db, ops, run, members :: Jams(kinds, db, ops, run, members)) <==> TangledKinds(kinds)
  {
    if db, ops, run, members :| Jams(kinds, db, ops, run, members) {
      JamsOnlyTangled(kinds, db, ops, run, members);
    }
    if TangledKinds(kinds) {
      var ops, run, members;
      if TwoRenames(kinds) {
        ops, run, members := RenamesJam(kinds);
      } else {
        ops, run, members := TrioJams(kinds);
      }
      assert Jams(kinds, STAGE, ops, run, members);
    }
  }
}
