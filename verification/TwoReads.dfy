/** The nested menu read as the service reads it: the categories at one moment of a run, the dishes at a
    later one. */
module TwoReads {
  import opened Domain
  import opened Spec
  import opened Tables
  import opened Engine
  import opened EngineInvariant
  import opened Serialisability
  import opened Ledger
  import opened Reachable
  import opened Catalogue

  /** The categories of a restaurant, each once. */
  ghost predicate CategoriesOf(db: Db, restaurant: Id, ids: seq<Id>) {
    && Distinct(ids)
    && forall c :: c in ids <==> c in db.categories && db.categories[c].restaurant == restaurant
  }

  /** The dishes of a restaurant, all of them or the available ones. */
  ghost predicate DishesListed(db: Db, restaurant: Id, onlyAvailable: bool, items: seq<Fetched>) {
    forall row :: row in items <==>
      && row.id in db.dishes && row.dish == db.dishes[row.id]
      && row.dish.restaurant == restaurant && (onlyAvailable ==> row.dish.available)
  }

  /** The categories were read when the run had `k` states, the dishes at its end. */
  ghost predicate Read(db: Db, ops: seq<Op>, run: seq<State>, k: nat, restaurant: Id, onlyAvailable: bool,
                       ids: seq<Id>, items: seq<Fetched>)
  {
    && Admissible(db, ops) && IsRun(db, ops, run) && 0 < k <= |run|
    && CategoriesOf(Seen(run[..k]), restaurant, ids)
    && DishesListed(Seen(run), restaurant, onlyAvailable, items)
  }

  /** A category of now was there before, with the same owner, or has been added since. */
  lemma {:induction false} CategoryPast(init: Db, ops: seq<Op>, log: seq<nat>, m: nat, c: Id)
    requires InRange(ops, log) && Replay(init, ops, log).Some? && m <= |log|
    requires c in Replay(init, ops, log).value.categories
    ensures InRange(ops, log[..m]) && Replay(init, ops, log[..m]).Some?
    ensures AddedSince(ops, log, m, c)
            || (c in Replay(init, ops, log[..m]).value.categories
                && Replay(init, ops, log[..m]).value.categories[c].restaurant
                   == Replay(init, ops, log).value.categories[c].restaurant)
  {
    if m == |log| {
      assert log[..m] == log;
    } else {
      var n := |log| - 1;
      var before := ReplayPrefix(init, ops, log);
      assert log[..n][..m] == log[..m];
      if c in before.categories {
        OwnerStays(before, ops[log[n]], c);
        CategoryPast(init, ops, log[..n], m, c);
        if AddedSince(ops, log[..n], m, c) {
          var x :| m <= x < n && ops[log[..n][x]].AddCategory? && ops[log[..n][x]].category == c;
          assert log[..n][x] == log[x];
        }
      } else {
        Emerges(before, ops[log[n]], c);
        assert ops[log[n]].AddCategory?;
        CategoryPrefix(init, ops, log, m);
      }
    }
  }

  ghost predicate AddedSince(ops: seq<Op>, log: seq<nat>, m: nat, c: Id)
    requires InRange(ops, log)
  {
    exists n :: m <= n < |log| && ops[log[n]].AddCategory? && ops[log[n]].category == c
  }

  lemma {:induction false} CategoryPrefix(init: Db, ops: seq<Op>, log: seq<nat>, m: nat)
    requires InRange(ops, log) && Replay(init, ops, log).Some? && m <= |log|
    ensures InRange(ops, log[..m]) && Replay(init, ops, log[..m]).Some?
  {
    if m == |log| {
      assert log[..m] == log;
    } else {
      var n := |log| - 1;
      var before := ReplayPrefix(init, ops, log);
      assert log[..n][..m] == log[..m];
      CategoryPrefix(init, ops, log[..n], m);
    }
  }

  lemma OwnerStays(db: Db, op: Op, c: Id)
    requires Apply(db, op).Ok? && c in db.categories && c in Apply(db, op).value.categories
    ensures Apply(db, op).value.categories[c].restaurant == db.categories[c].restaurant
  {
    if op.Checkout? {
      CheckoutEffect(db, op, 0);
    } else if op.IsOrderOp() {
      MoveEffect(db, op, 0);
    } else {
      hide NameTaken, CategoryUsed, DishOrdered, DishInRange, CategoryOf;
    }
  }

  lemma Emerges(db: Db, op: Op, c: Id)
    requires Apply(db, op).Ok? && c !in db.categories && c in Apply(db, op).value.categories
    ensures op.AddCategory? && op.category == c
  {
    if op.Checkout? {
      CheckoutEffect(db, op, 0);
    } else if op.IsOrderOp() {
      MoveEffect(db, op, 0);
    } else {
      hide NameTaken, CategoryUsed, DishOrdered, DishInRange, CategoryOf;
    }
  }

  /** An identifier is added once, so what was there at some moment is not added after it. */
  lemma NotAddedAgain(init: Db, ops: seq<Op>, log: seq<nat>, m: nat, c: Id)
    requires Admissible(init, ops) && NoRepeats(log) && InRange(ops, log) && m <= |log|
    requires InRange(ops, log[..m]) && Replay(init, ops, log[..m]).Some?
    requires c in Replay(init, ops, log[..m]).value.categories
    ensures !AddedSince(ops, log, m, c)
  {
    CategoryPast(init, ops, log[..m], 0, c);
    assert log[..m][..0] == [];
    forall n | m <= n < |log| && ops[log[n]].AddCategory? ensures ops[log[n]].category != c {
      assert ops[log[n]].category in NewIds(ops[log[n]]);
      assert Unused(init, ops[log[n]].category);
      if AddedSince(ops, log[..m], 0, c) {
        var x :| 0 <= x < m && ops[log[..m][x]].AddCategory? && ops[log[..m][x]].category == c;
        assert log[..m][x] == log[x] && log[x] != log[n];
        assert c in NewIds(ops[log[x]]);
        assert NewIds(ops[log[x]]) !! NewIds(ops[log[n]]);
      }
    }
    hide Replay, Admissible;
  }

  /** A dish read at the end of the run: its category, if it was there at the earlier moment, already
      belonged to the dish's restaurant; if not, it has been added since. */
  lemma CategoryOfRead(db: Db, ops: seq<Op>, run: seq<State>, k: nat, d: Id)
    requires Admissible(db, ops) && IsRun(db, ops, run) && 0 < k <= |run| && d in Seen(run).dishes
    ensures InRange(ops, LogOf(run))
    ensures var a, dish := Seen(run[..k]), Seen(run).dishes[d];
            if dish.category in a.categories then a.categories[dish.category].restaurant == dish.restaurant
            else AddedSince(ops, LogOf(run), |LogOf(run[..k])|, dish.category)
  {
    assert run != [];
    LogGrows(db, ops, run, k);
    Reached(db, ops, run);
    Reached(db, ops, run[..k]);
    RunGood(db, ops, run);
    assert DishOk(Seen(run).categories, Seen(run).dishes[d]);
    var log, m, c := LogOf(run), |LogOf(run[..k])|, Seen(run).dishes[d].category;
    assert NoRepeats(log) && log[..m] == LogOf(run[..k]);
    assert c in Seen(run).categories && Seen(run).categories[c].restaurant == Seen(run).dishes[d].restaurant;
    hide *;
    CategoryPast(db, ops, log, m, c);
    if c in Seen(run[..k]).categories {
      NotAddedAgain(db, ops, log, m, c);
    }
  }

  /** The two-read menu keeps every dish it read, if and only if every dish read at the later moment has
      its category among those there at the earlier one. */
  lemma KeptWhenRead(db: Db, ops: seq<Op>, run: seq<State>, k: nat, restaurant: Id, onlyAvailable: bool,
                     ids: seq<Id>, items: seq<Fetched>)
    requires Read(db, ops, run, k, restaurant, onlyAvailable, ids, items)
    ensures multiset(Flat(Groups(ids, items, CategoryKey))) == multiset(items)
            <==> forall i :: 0 <= i < |items| ==> items[i].dish.category in Seen(run[..k]).categories
  {
    GroupsKeepAll(ids, items, CategoryKey);
    forall i | 0 <= i < |items|
      ensures items[i].dish.category in Seen(run[..k]).categories <==> CategoryKey(items[i]) in ids
    {
      assert items[i] in items;
      CategoryOfRead(db, ops, run, k, items[i].id);
    }
    hide Groups, Flat, IsRun, Admissible, Seen, LogOf, AddedSince;
  }

  /** A dish that the two-read menu loses is in a category that was added between the two reads; so when no
      category was added in between, no dish is lost. */
  lemma LostIsNew(db: Db, ops: seq<Op>, run: seq<State>, k: nat, restaurant: Id, onlyAvailable: bool,
                  ids: seq<Id>, items: seq<Fetched>, i: nat)
    requires Read(db, ops, run, k, restaurant, onlyAvailable, ids, items)
    requires i < |items| && items[i].dish.category !in ids
    ensures InRange(ops, LogOf(run))
    ensures AddedSince(ops, LogOf(run), |LogOf(run[..k])|, items[i].dish.category)
  {
    assert items[i] in items;
    CategoryOfRead(db, ops, run, k, items[i].id);
    hide IsRun, Admissible, Seen, LogOf, AddedSince;
  }

  // ---------- a lost dish ----------

  const BARE: Db := Db(map[], map[], map[])
  const ADD_CATEGORY: Op := AddCategory(1, 6, "y")
  const TEA: Dish := Dish(1, 6, "", "", 0, 0, true)
  const ADD_TEA: Op := AddItem(7, TEA)

  /** The two partner calls, no locks. */
  function Scene(db: Db, category: Pc, tea: Pc, log: seq<nat>): State {
    State(db, map[], [NewSession(ADD_CATEGORY).(pc := category), NewSession(ADD_TEA).(pc := tea)], log, [])
  }

  lemma BareOk()
    ensures Admissible(BARE, [ADD_CATEGORY, ADD_TEA])
    ensures Init(BARE, [ADD_CATEGORY, ADD_TEA]) == Scene(BARE, Start, Start, [])
  {
    assert Init(BARE, [ADD_CATEGORY, ADD_TEA]).sessions == [NewSession(ADD_CATEGORY), NewSession(ADD_TEA)];
  }

  lemma CategoryComes()
    ensures Steps(Scene(BARE, Start, Start, []), 0, Scene(BARE, Writing, Start, []))
    ensures Steps(Scene(BARE, Writing, Start, []), 0,
                  Scene(BARE.(categories := map[6 := Category(1, "y")]), Finished, Start, [0]))
  {
    var none: set<Id> := {};
    assert none + none == none;
    var s := Scene(BARE, Start, Start, []);
    assert BeginMenu(s, 0).sessions[0] == NewSession(ADD_CATEGORY).(pc := Writing);
    assert BeginMenu(s, 0).sessions == Scene(BARE, Writing, Start, []).sessions;
    var t := Scene(BARE, Writing, Start, []);
    var db := BARE.(categories := map[6 := Category(1, "y")]);
    assert Statement(t.db, ADD_CATEGORY) == Ok(db);
    assert Write(t, 0).value.sessions == Scene(db, Finished, Start, [0]).sessions;
    assert [] + [0] == [0];
  }

  lemma TeaComes()
    ensures var db := BARE.(categories := map[6 := Category(1, "y")]);
            && Steps(Scene(db, Finished, Start, [0]), 1, Scene(db, Finished, Writing, [0]))
            && Steps(Scene(db, Finished, Writing, [0]), 1, Scene(db.(dishes := map[7 := TEA]), Finished, Finished, [0, 1]))
  {
    var db := BARE.(categories := map[6 := Category(1, "y")]);
    var none: set<Id> := {};
    assert none + none == none;
    var s := Scene(db, Finished, Start, [0]);
    assert BeginMenu(s, 1).sessions[1] == NewSession(ADD_TEA).(pc := Writing);
    assert BeginMenu(s, 1).sessions == Scene(db, Finished, Writing, [0]).sessions;
    var t := Scene(db, Finished, Writing, [0]);
    assert Statement(t.db, ADD_TEA) == Ok(db.(dishes := map[7 := TEA]));
    assert Write(t, 1).value.sessions == Scene(db, Finished, Finished, [0, 1]).sessions;
    assert [0] + [1] == [0, 1];
  }

  lemma TeaRun() returns (run: seq<State>)
    ensures IsRun(BARE, [ADD_CATEGORY, ADD_TEA], run) && |run| == 5
    ensures run[0] == Scene(BARE, Start, Start, [])
    ensures run[4] == Scene(Db(map[6 := Category(1, "y")], map[7 := TEA], map[]), Finished, Finished, [0, 1])
  {
    BareOk();
    CategoryComes();
    TeaComes();
    run := [Scene(BARE, Start, Start, []), Scene(BARE, Writing, Start, []),
            Scene(BARE.(categories := map[6 := Category(1, "y")]), Finished, Start, [0]),
            Scene(BARE.(categories := map[6 := Category(1, "y")]), Finished, Writing, [0]),
            Scene(Db(map[6 := Category(1, "y")], map[7 := TEA], map[]), Finished, Finished, [0, 1])];
    hide Steps, Init, Scene;
    assert Next(run[0], run[1]) && Next(run[1], run[2]) && Next(run[2], run[3]) && Next(run[3], run[4]);
  }

  lemma Listings(before: Db, after: Db)
    requires before.categories == map[] && after.dishes == map[7 := TEA]
    ensures CategoriesOf(before, 1, []) && DishesListed(after, 1, false, [Fetched(7, TEA)])
    ensures Flat(Groups([], [Fetched(7, TEA)], CategoryKey)) == []
  {
  }

  lemma TeaRead(run: seq<State>)
    requires |run| == 5 && run[0] == Scene(BARE, Start, Start, [])
    requires run[4] == Scene(Db(map[6 := Category(1, "y")], map[7 := TEA], map[]), Finished, Finished, [0, 1])
    ensures Seen(run[..1]).categories == map[] && Seen(run).dishes == map[7 := TEA]
  {
    UnlockedVisible(run[0]);
    UnlockedVisible(run[4]);
    hide Visible;
  }

  /** A run in which the two-read menu loses a dish: category and dish both come between its reads. */
  lemma DishLost() returns (run: seq<State>)
    ensures Read(BARE, [ADD_CATEGORY, ADD_TEA], run, 1, 1, false, [], [Fetched(7, TEA)])
    ensures Flat(Groups([], [Fetched(7, TEA)], CategoryKey)) == []
  {
    run := TeaRun();
    BareOk();
    hide IsRun, Seen, Admissible, Scene, Init, CategoriesOf, DishesListed, Flat, Groups;
    TeaRead(run);
    Listings(Seen(run[..1]), Seen(run));
  }
}
