/** The other answer that differs from the sequential one: a dish is added to a category that is deleted
    between the service's check and its INSERT, and the foreign key calls it a conflict where the check
    would have said that the category does not exist. */
module LostCategory {
  import opened Domain
  import opened Spec
  import opened Tables
  import opened Engine
  import opened Serialisability
  import opened Answers
  import LateDish

  const DROP: Op := DropCategory(1, 2)
  const OPS: seq<Op> := [LateDish.ADD, DROP]

  /** Two calls that have got this far. */
  function Scene(db: Db, locks: map<Row, nat>, add: Pc, drop: Pc, log: seq<nat>): State {
    State(db, locks,
          [NewSession(LateDish.ADD).(pc := add),
           NewSession(DROP).(pc := drop, known := if drop.Start? then {} else {2})],
          log, [])
  }

  const CHECKED: State := Scene(LateDish.EMPTY_MENU, map[], Writing, Start, [])
  const BOTH_CHECKED: State := Scene(LateDish.EMPTY_MENU, map[], Writing, Writing, [])
  const DROPPING: State := Scene(LateDish.EMPTY_MENU, map[CategoryRow(2) := 1], Writing, Checking, [])
  const DROPPED: State := Scene(Db(map[], map[], map[]), map[], Writing, Finished, [1])

  lemma Opening()
    ensures Admissible(LateDish.EMPTY_MENU, OPS)
    ensures Init(LateDish.EMPTY_MENU, OPS) == Scene(LateDish.EMPTY_MENU, map[], Start, Start, [])
  {
    assert Init(LateDish.EMPTY_MENU, OPS).sessions == [NewSession(LateDish.ADD), NewSession(DROP)];
  }

  lemma Checks()
    ensures Steps(Scene(LateDish.EMPTY_MENU, map[], Start, Start, []), 0, CHECKED)
    ensures Steps(CHECKED, 1, BOTH_CHECKED)
  {
    var s := Scene(LateDish.EMPTY_MENU, map[], Start, Start, []);
    var none: set<Id> := {};
    assert none + none == none && none + {2} == {2};
    assert BeginMenu(s, 0).sessions[0] == NewSession(LateDish.ADD).(pc := Writing);
    assert BeginMenu(s, 0).sessions == CHECKED.sessions;
    assert BeginMenu(CHECKED, 1).sessions[1] == NewSession(DROP).(pc := Writing, known := {2});
    assert BeginMenu(CHECKED, 1).sessions == BOTH_CHECKED.sessions;
  }

  lemma Deletion()
    ensures Steps(BOTH_CHECKED, 1, DROPPING) && Steps(DROPPING, 1, DROPPED)
  {
    var free: map<Row, nat> := map[];
    assert free[CategoryRow(2) := 1] == map[CategoryRow(2) := 1];
    assert Write(BOTH_CHECKED, 1).value.sessions == DROPPING.sessions;
    assert !Barred(DROPPING, 1);
    assert Statement(DROPPING.db, DROP) == Ok(DROPPED.db) by {
      assert LateDish.EMPTY_MENU.categories - {2} == map[];
    }
    assert Unlocked(DROPPING.locks, 1) == map[];
    assert Settle(DROPPING, 1).sessions == DROPPED.sessions;
    assert [] + [1] == [1];
  }

  lemma Refusal() returns (s': State)
    ensures Advance(DROPPED, 0) == Some(s') && |s'.sessions| == 2 && s'.sessions[0].pc == Rejected(Conflict)
    ensures Outdated(DROPPED, 0) && Apply(Visible(DROPPED), LateDish.ADD) == Err(CategoryNotFound)
  {
    assert !Barred(DROPPED, 0);
    assert Statement(DROPPED.db, LateDish.ADD) == Err(Conflict);
    s' := Settle(DROPPED, 0);
    assert Visible(DROPPED).categories == map[];
  }

  /** Five states from a fresh start the addition is refused as a conflict; run now, it would be told that
      its category does not exist. */
  lemma LostHappens() returns (run: seq<State>, s': State)
    ensures Admissible(LateDish.EMPTY_MENU, OPS) && IsRun(LateDish.EMPTY_MENU, OPS, run) && |run| == 5
    ensures var s := run[4];
            && |s.sessions| == 2 && s.sessions[0].op == LateDish.ADD
            && Advance(s, 0) == Some(s') && |s'.sessions| == 2 && s'.sessions[0].pc == Rejected(Conflict)
            && Outdated(s, 0) && Apply(Visible(s), LateDish.ADD) == Err(CategoryNotFound)
  {
    Opening();
    Checks();
    Deletion();
    s' := Refusal();
    run := [Scene(LateDish.EMPTY_MENU, map[], Start, Start, []), CHECKED, BOTH_CHECKED, DROPPING, DROPPED];
    hide Steps, Init, Advance, Outdated, Visible, Apply, Admissible;
    assert Next(run[0], run[1]) && Next(run[1], run[2]) && Next(run[2], run[3]) && Next(run[3], run[4]);
  }
}
