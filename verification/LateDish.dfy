/** The one answer that differs from the sequential one does happen: a dish added between a checkout's
    snapshot and its row count. */
module LateDish {
  import opened Domain
  import opened Spec
  import opened Tables
  import opened Engine
  import opened EngineInvariant
  import opened Serialisability
  import opened Answers
  import opened SellThrough

  const SOUP: Dish := Dish(1, 2, "", "", 7, 1, true)
  const EMPTY_MENU: Db := Db(map[2 := Category(1, "")], map[], map[])
  const ADD: Op := AddItem(3, SOUP)
  /** The checkout names the dish before anybody has been told its id: the service returns an id only
      after its insert, so this is a guessed one. */
  const BUY: Op := Checkout(CheckoutInput(4, 1, [Line(3, 1)], "a", ""), 5, Some(RestaurantRow(true, "")))

  /** Two calls, no locks. */
  function Scene(db: Db, add: Pc, buy: Pc, log: seq<nat>): State {
    State(db, map[], [NewSession(ADD).(pc := add), NewSession(BUY).(pc := buy)], log, [])
  }

  lemma BuyIsFine()
    ensures WantsOne(BUY, 3, 1) && Wanted(BUY.input.lines) == map[3 := 1]
    ensures Admissible(EMPTY_MENU, [ADD, BUY])
  {
    assert ValidLines(BUY.input.lines);
    assert BUY.input.address[0] == 'a';
    UnitWanted(BUY, 3, 1);
  }

  lemma Opening()
    ensures Init(EMPTY_MENU, [ADD, BUY]) == Scene(EMPTY_MENU, Start, Start, [])
    ensures Steps(Scene(EMPTY_MENU, Start, Start, []), 1, Scene(EMPTY_MENU, Start, Scanning, []))
  {
    BuyIsFine();
    assert Init(EMPTY_MENU, [ADD, BUY]).sessions == [NewSession(ADD), NewSession(BUY)];
    hide Wanted, Admissible;
    var s := Scene(EMPTY_MENU, Start, Start, []);
    assert BeginCheckout(s, 1).sessions == Scene(EMPTY_MENU, Start, Scanning, []).sessions;
  }

  lemma Snapshot()
    ensures Steps(Scene(EMPTY_MENU, Start, Scanning, []), 1, Scene(EMPTY_MENU, Start, Locking([]), []))
  {
    BuyIsFine();
    var s := Scene(EMPTY_MENU, Start, Scanning, []);
    assert Wanted(BUY.input.lines).Keys * s.db.dishes.Keys == {};
    assert Ascending({}) == [];
    hide Wanted, Admissible;
    var none: set<Id> := {};
    assert none + none == none;
    assert Scan(s, 1).sessions[1] == NewSession(BUY).(pc := Locking([]));
    assert Scan(s, 1).sessions == Scene(EMPTY_MENU, Start, Locking([]), []).sessions;
  }

  lemma Addition()
    ensures Steps(Scene(EMPTY_MENU, Start, Locking([]), []), 0, Scene(EMPTY_MENU, Writing, Locking([]), []))
    ensures var db := EMPTY_MENU.(dishes := map[3 := SOUP]);
            Steps(Scene(EMPTY_MENU, Writing, Locking([]), []), 0, Scene(db, Finished, Locking([]), [0]))
  {
    var s := Scene(EMPTY_MENU, Start, Locking([]), []);
    var none: set<Id> := {};
    assert none + none == none;
    assert BeginMenu(s, 0).sessions[0] == NewSession(ADD).(pc := Writing);
    assert BeginMenu(s, 0).sessions == Scene(EMPTY_MENU, Writing, Locking([]), []).sessions;
    var db := EMPTY_MENU.(dishes := map[3 := SOUP]);
    var t := Scene(EMPTY_MENU, Writing, Locking([]), []);
    assert Statement(t.db, ADD) == Ok(db);
    assert Write(t, 0).value.sessions == Scene(db, Finished, Locking([]), [0]).sessions;
    assert [] + [0] == [0];
  }

  lemma Refusal() returns (s': State)
    ensures var s := Scene(EMPTY_MENU.(dishes := map[3 := SOUP]), Finished, Locking([]), [0]);
            && Advance(s, 1) == Some(s') && |s'.sessions| == 2 && s'.sessions[1].pc == Rejected(MenuItemNotFound)
            && Late(s, 1) && Apply(Visible(s), BUY).Ok?
  {
    var s := Scene(EMPTY_MENU.(dishes := map[3 := SOUP]), Finished, Locking([]), [0]);
    s' := LockNext(s, 1).value;
    BuyIsFine();
    assert Visible(s).dishes == s.db.dishes;
    assert Visible(s).orders == map[];
    hide Undone, Unlocked, Visible, Apply, Wanted, Admissible;
    UnitVerdict(Visible(s), BUY, 3);
  }

  /** Five states from a fresh start, the checkout is turned away although, run now, it would be accepted. */
  lemma LateHappens() returns (run: seq<State>, s': State)
    ensures Admissible(EMPTY_MENU, [ADD, BUY]) && IsRun(EMPTY_MENU, [ADD, BUY], run) && |run| == 5
    ensures var s := run[4];
            && |s.sessions| == 2 && s.sessions[1].op == BUY && BUY.Checkout?
            && Advance(s, 1) == Some(s') && |s'.sessions| == 2 && s'.sessions[1].pc == Rejected(MenuItemNotFound)
            && Late(s, 1) && Apply(Visible(s), BUY).Ok?
  {
    BuyIsFine();
    Opening();
    Snapshot();
    Addition();
    s' := Refusal();
    run := [Scene(EMPTY_MENU, Start, Start, []), Scene(EMPTY_MENU, Start, Scanning, []),
            Scene(EMPTY_MENU, Start, Locking([]), []), Scene(EMPTY_MENU, Writing, Locking([]), []),
            Scene(EMPTY_MENU.(dishes := map[3 := SOUP]), Finished, Locking([]), [0])];
    hide Steps, Init, Advance, Late, Visible, Apply, Admissible;
    assert Next(run[0], run[1]) && Next(run[1], run[2]) && Next(run[2], run[3]) && Next(run[3], run[4]);
  }
}
