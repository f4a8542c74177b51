/** The partner simulator against the real order service: every delivery of a request is a status-change
    call of the concurrent engine, interleaved statement by statement with everybody else's calls. The
    engine's kitchen refines the one of the retry protocol, so its safety carries over. */
module Simulator {
  import opened Domain
  import opened Spec
  import opened Tables
  import opened Engine
  import opened EngineInvariant
  import opened Serialisability
  import opened Ledger
  import opened Audit
  import opened Retry

  /** One lifecycle's order, the restaurant it acts for, and which calls deliver which of its requests:
      a request may have any number of deliveries, or none. */
  datatype Wiring = Wiring(order: Id, restaurant: Id, carries: map<nat, nat>)

  datatype Composite = Composite(
    state: State, client: Client, sent: seq<Status>, answers: set<(nat, Reply)>, applied: seq<nat>)

  /** The call delivers a request that has been sent, as it was sent. */
  predicate Carries(x: Composite, wiring: Wiring, i: nat)
    requires i < |x.state.sessions| && i in wiring.carries
  {
    var op := x.state.sessions[i].op;
    && wiring.carries[i] < |x.sent|
    && op.ChangeStatus? && op.order == wiring.order && op.restaurant == wiring.restaurant
    && op.status == x.sent[wiring.carries[i]]
  }

  /** One statement of one call. The commit of a delivery applies its request, and only then may the client
      be told so. */
  ghost predicate EngineStep(x: Composite, wiring: Wiring, i: nat, x': Composite) {
    && Steps(x.state, i, x'.state)
    && (i in wiring.carries ==> Carries(x, wiring, i))
    && x'.client == x.client && x'.sent == x.sent
    && if i in wiring.carries && x'.state.log != x.state.log
       then x'.applied == x.applied + [wiring.carries[i]] && x'.answers == x.answers + {(wiring.carries[i], Success)}
       else x'.applied == x.applied && x'.answers == x.answers
  }

  /** The protocol's view of the system: the order's committed status. */
  function Abstract(x: Composite, wiring: Wiring): World
    requires wiring.order in Visible(x.state).orders
  {
    World(Visible(x.state).orders[wiring.order].status, x.client, x.sent, x.answers, x.applied)
  }

  ghost predicate ClientStep(x: Composite, wiring: Wiring, signal: Signal, x': Composite)
    requires wiring.order in Visible(x.state).orders
  {
    var w := Signalled(Abstract(x, wiring), signal);
    CanSignal(Abstract(x, wiring), signal) && x' == x.(client := w.client, sent := w.sent)
  }

  ghost predicate CompositeStep(x: Composite, wiring: Wiring, x': Composite) {
    || (exists i :: EngineStep(x, wiring, i, x'))
    || (wiring.order in Visible(x.state).orders && exists signal :: ClientStep(x, wiring, signal, x'))
  }

  /** The order is in when its lifecycle begins. */
  ghost predicate CompositeTrace(db: Db, ops: seq<Op>, wiring: Wiring, trace: seq<Composite>) {
    && trace != [] && Admissible(db, ops) && wiring.order in db.orders
    && trace[0] == Composite(Init(db, ops), Waiting(0), [], {}, [])
    && forall n :: 0 < n < |trace| ==> CompositeStep(trace[n - 1], wiring, trace[n])
  }

  // ---------- refinement ----------

  /** A call that is not about order o leaves it as it is. */
  lemma OtherCall(db: Db, op: Op, o: Id)
    requires Apply(db, op).Ok? && o in db.orders && MovedOrder(op) != Some(o)
    ensures o in Apply(db, op).value.orders && Apply(db, op).value.orders[o] == db.orders[o]
  {
    if op.Checkout? {
      CheckoutEffect(db, op, 0);
    } else if op.IsOrderOp() {
      MoveEffect(db, op, 0);
    } else {
      MenuStock(db, op, 0);
    }
    hide Apply;
  }

  /** A call about order o makes a move that the lifecycle allows its actor. */
  lemma OwnCall(db: Db, op: Op, o: Id)
    requires Apply(db, op).Ok? && MovedOrder(op) == Some(o)
    ensures o in db.orders && o in Apply(db, op).value.orders
    ensures LegalMove(db.orders[o].status, TargetOf(op), ActorOf(op))
    ensures Apply(db, op).value.orders[o].status == TargetOf(op)
    ensures TargetOf(op) != Cancelled ==> CanTransitionTo(db.orders[o].status, TargetOf(op))
  {
    hide RefundFault, Restock;
  }

  ghost predicate CompositeOk(x: Composite, ops: seq<Op>, wiring: Wiring) {
    && Inv(x.state) && wiring.order in Visible(x.state).orders
    && WorldOk(Abstract(x, wiring))
  }

  /** What a committed call does to the protocol's view. */
  lemma CommitRefines(x: Composite, wiring: Wiring, i: nat, x': Composite)
    requires i < |x.state.sessions| && EngineStep(x, wiring, i, x')
    requires wiring.order in Visible(x.state).orders && WorldOk(Abstract(x, wiring))
    requires x'.state.log != x.state.log
    requires Apply(Visible(x.state), x.state.sessions[i].op) == Ok(Visible(x'.state))
    ensures wiring.order in Visible(x'.state).orders
    ensures Abstract(x', wiring) == Abstract(x, wiring) || Step(Abstract(x, wiring), Abstract(x', wiring))
  {
    var w, op := Abstract(x, wiring), x.state.sessions[i].op;
    if MovedOrder(op) == Some(wiring.order) {
      OwnCall(Visible(x.state), op, wiring.order);
      hide Visible, Apply, Steps, SentOk, AppliedOk;
      if i in wiring.carries {
        var n := wiring.carries[i];
        assert w.sent[n] != Cancelled by { assert SentOk(w); RungOfSent(w, n); }
        assert Abstract(x', wiring) == Delivered(w, n);
      } else {
        assert Abstract(x', wiring) == w.(status := TargetOf(op));
      }
    } else {
      OtherCall(Visible(x.state), op, wiring.order);
      hide Visible, Apply, Steps, WorldOk;
    }
  }

  lemma RungOfSent(w: World, n: nat)
    requires SentOk(w) && n < |w.sent|
    ensures w.sent[n] != Cancelled
  {
    assert 1 <= Rung(w.sent[n]) <= 3;
  }

  lemma EngineRefines(x: Composite, wiring: Wiring, ops: seq<Op>, i: nat, x': Composite)
    requires CompositeOk(x, ops, wiring) && EngineStep(x, wiring, i, x')
    ensures CompositeOk(x', ops, wiring)
  {
    var s, s' := x.state, x'.state;
    assert i < |s.sessions|;
    StepIsAtomic(s, i, s');
    if s'.log == s.log {
      assert Visible(s') == Visible(s);
      assert Abstract(x', wiring) == Abstract(x, wiring);
    } else {
      hide Inv, WorldOk, EngineStep, Visible, Apply, Step;
      CommitRefines(x, wiring, i, x');
      if Abstract(x', wiring) != Abstract(x, wiring) {
        StepKeeps(Abstract(x, wiring), Abstract(x', wiring));
      }
    }
  }

  lemma ClientRefines(x: Composite, wiring: Wiring, ops: seq<Op>, signal: Signal, x': Composite)
    requires CompositeOk(x, ops, wiring) && ClientStep(x, wiring, signal, x')
    ensures CompositeOk(x', ops, wiring)
  {
    assert Abstract(x', wiring) == Signalled(Abstract(x, wiring), signal);
    hide Inv, WorldOk, Visible, Signalled, CanSignal;
    SignalKeeps(Abstract(x, wiring), signal);
  }

  lemma StepRefines(x: Composite, wiring: Wiring, ops: seq<Op>, x': Composite)
    requires CompositeOk(x, ops, wiring) && CompositeStep(x, wiring, x')
    ensures CompositeOk(x', ops, wiring)
  {
    hide CompositeOk, EngineStep, ClientStep, Visible;
    if i :| EngineStep(x, wiring, i, x') {
      EngineRefines(x, wiring, ops, i, x');
    } else {
      var signal :| ClientStep(x, wiring, signal, x');
      ClientRefines(x, wiring, ops, signal, x');
    }
  }

  lemma TraceStarts(db: Db, ops: seq<Op>, wiring: Wiring, trace: seq<Composite>)
    requires CompositeTrace(db, ops, wiring, trace) && |trace| == 1
    ensures CompositeOk(trace[0], ops, wiring)
  {
    InitGood(db, ops);
    InitVisible(db, ops);
    hide Inv, Init, Visible, Admissible;
  }

  lemma TracePrefix(db: Db, ops: seq<Op>, wiring: Wiring, trace: seq<Composite>)
    requires CompositeTrace(db, ops, wiring, trace) && |trace| > 1
    ensures var n := |trace| - 1;
            CompositeTrace(db, ops, wiring, trace[..n]) && CompositeStep(trace[n - 1], wiring, trace[n])
  {
    hide CompositeStep, Admissible, Init;
  }

  lemma {:induction false} TraceOk(db: Db, ops: seq<Op>, wiring: Wiring, trace: seq<Composite>)
    requires CompositeTrace(db, ops, wiring, trace)
    ensures trace != [] && CompositeOk(trace[|trace| - 1], ops, wiring)
  {
    assert trace != [];
    hide *;
    if |trace| == 1 {
      TraceStarts(db, ops, wiring, trace);
    } else {
      var n := |trace| - 1;
      TracePrefix(db, ops, wiring, trace);
      TraceOk(db, ops, wiring, trace[..n]);
      StepRefines(trace[n - 1], wiring, ops, trace[n]);
    }
  }

  /** Retry safety against the order service itself: requests lost, delayed or delivered any number of
      times, each delivery a transaction among all the others' transactions, rolled back or committed at
      any point, and the statuses one lifecycle gets committed are still a prefix of accepted, cooking,
      ready, each once, after at most nine requests. */
  lemma SimulatorSafety(db: Db, ops: seq<Op>, wiring: Wiring, trace: seq<Composite>)
    requires CompositeTrace(db, ops, wiring, trace)
    ensures
      var x := trace[|trace| - 1];
      && (forall n :: 0 <= n < |x.applied| ==> x.applied[n] < |x.sent|)
      && AppliedOf(x.applied, x.sent) <= [Accepted, Cooking, Ready]
      && |x.sent| <= 9
      && (x.client == Stopped(3) ==> AppliedOf(x.applied, x.sent) == [Accepted, Cooking, Ready])
  {
    assert trace != [];
    TraceOk(db, ops, wiring, trace);
    hide Inv, Visible, CompositeTrace;
    SafeWorld(Abstract(trace[|trace| - 1], wiring));
  }
}
