/** Partner notifications over whole runs: one dispatch attempt per committed order change whose
    restaurant has a webhook, after its commit, and none for anything that was rolled back. */
module Notifications {
  import opened Domain
  import opened Spec
  import opened Engine
  import opened EngineInvariant
  import opened EngineMover
  import opened EngineMenu
  import opened Serialisability

  /** The calls whose outcome a restaurant hears about: order calls, if the restaurant that was read has a
      webhook address. */
  predicate Audible(op: Op) {
    match op
    case Checkout(_, _, sample) => sample.Some? && sample.value.url != ""
    case ChangeStatus(_, _, _, url) => url != ""
    case CustomerCancel(_, _, url) => url != ""
    case _ => false
  }

  ghost predicate NotifiedOk(s: State) {
    && NoRepeats(s.notified)
    && (forall k :: 0 <= k < |s.notified| ==> s.notified[k] < |s.sessions|)
    && (forall i :: 0 <= i < |s.sessions| ==>
          (i in s.notified <==> s.sessions[i].pc.Finished? && Audible(s.sessions[i].op)))
  }

  /** A dispatch attempt and the end of a committed order call are the same step. */
  ghost predicate NotifyStepOk(s: State, i: nat, s': State)
    requires i < |s.sessions| == |s'.sessions|
  {
    && !s.sessions[i].Over()
    && (s.sessions[i].op.IsOrderOp() ==> (s'.sessions[i].pc.Finished? <==> s.sessions[i].pc.Notifying?))
    && s'.notified == if s'.sessions[i].pc.Finished? && Audible(s.sessions[i].op) then s.notified + [i] else s.notified
  }

  lemma CheckoutNotifies(s: State, i: nat, s': State)
    requires i < |s.sessions| == |s'.sessions| && s.sessions[i].op.Checkout? && AdvanceCheckout(s, i) == Some(s')
    ensures NotifyStepOk(s, i, s')
  {
    hide Undone, Unlocked, Wanted, LineFault, ReceiptSoFar, EntryFault, Wrap64;
  }

  lemma MoveNotifies(s: State, i: nat, s': State)
    requires Mover(s, i) && |s.sessions| == |s'.sessions| && AdvanceMove(s, i) == Some(s')
    ensures NotifyStepOk(s, i, s')
  {
    hide Undone, Unlocked, VerdictOn, Stamp;
  }

  lemma MenuNotifies(s: State, i: nat, s': State)
    requires Partner(s, i) && |s.sessions| == |s'.sessions| && AdvanceMenu(s, i) == Some(s')
    ensures NotifyStepOk(s, i, s')
  {
    hide Undone, Unlocked, MenuFault, Statement, CategoryOf;
  }

  lemma StepNotifies(s: State, i: nat, s': State)
    requires Steps(s, i, s') && |s.sessions| == |s'.sessions|
    ensures NotifyStepOk(s, i, s')
  {
    var t := s.sessions[i];
    if Advance(s, i) == Some(s') {
      if t.op.Checkout? {
        CheckoutNotifies(s, i, s');
      } else if t.op.IsOrderOp() {
        MoveNotifies(s, i, s');
      } else {
        MenuNotifies(s, i, s');
      }
    }
  }

  lemma NotifiedKeeps(s: State, i: nat, s': State)
    requires NotifiedOk(s) && Steps(s, i, s')
    ensures NotifiedOk(s')
  {
    StepLogs(s, i, s');
    StepNotifies(s, i, s');
    hide Steps, Audible;
  }

  lemma {:induction false} RunNotifies(db: Db, ops: seq<Op>, run: seq<State>)
    requires IsRun(db, ops, run)
    ensures NotifiedOk(run[|run| - 1])
  {
    assert run != [] && run[0] == Init(db, ops);
    if |run| > 1 {
      hide *;
      var n := |run| - 1;
      var i := RunPrefix(db, ops, run);
      RunNotifies(db, ops, run[..n]);
      NotifiedKeeps(run[n - 1], i, run[n]);
    }
  }

  /** Exactly once and only after the commit: a session is dispatched for when it has committed, has
      finished and is audible, never twice, and never when it was rolled back. When nothing is in
      flight any more, that is every committed order call with a webhook. */
  lemma NotifiedOnce(db: Db, ops: seq<Op>, run: seq<State>)
    requires Admissible(db, ops) && IsRun(db, ops, run)
    ensures
      var s := run[|run| - 1];
      && |s.sessions| == |ops| && NoRepeats(s.notified)
      && (forall i | i in s.notified :: i < |ops| && Audible(ops[i]) && i in s.log && s.sessions[i].pc.Finished?)
      && (forall i :: 0 <= i < |ops| && s.sessions[i].pc.Rejected? ==> i !in s.notified)
      && (Quiet(s) ==> forall i :: 0 <= i < |ops| ==> (i in s.notified <==> i in s.log && Audible(ops[i])))
  {
    assert run != [];
    RunNotifies(db, ops, run);
    RunGood(db, ops, run);
    hide IsRun, Admissible, Inv, Replay, Audible;
  }
}
