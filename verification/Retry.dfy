/** The partner simulator against the kitchen: a client that retries over a network which loses, delays
    and duplicates, talking to the order state machine while other actors move the order too. */
module Retry {
  import opened Domain
  import opened Spec
  import opened Tables
  import opened Audit

  const ATTEMPTS: nat := 3

  /** The kitchen workflow a lifecycle walks through. */
  const STAGES: seq<Status> := [Accepted, Cooking, Ready]

  datatype Reply = Success | Transient | Permanent

  /** What a lifecycle waits for: a timer, the cancellation of its context, or an answer. A lost request
      or a lost answer is a transient answer: the client times out. */
  datatype Signal = Tick | CtxDone | Answer(reply: Reply)

  /** Where a lifecycle is: before stage k, waiting for the answer to an attempt at it, pausing after a
      transient failure, or over with the first `done` stages acknowledged. */
  datatype Client =
    | Waiting(k: nat)
    | Asking(k: nat, attempt: nat)
    | Pausing(k: nat, attempt: nat)
    | Stopped(done: nat)

  function React(c: Client, signal: Signal): Client {
    match c
    case Waiting(k) =>
      if signal.Tick? then Asking(k, 1) else if signal.CtxDone? then Stopped(k) else c
    case Asking(k, attempt) =>
      if !signal.Answer? then c
      else
        (match signal.reply
         case Success => if k + 1 >= |STAGES| then Stopped(k + 1) else Waiting(k + 1)
         case Permanent => Stopped(k)
         case Transient => Pausing(k, attempt))
    case Pausing(k, attempt) =>
      if signal.CtxDone? then Stopped(k)
      else if signal.Tick? then if attempt >= ATTEMPTS then Stopped(k) else Asking(k, attempt + 1)
      else c
    case Stopped(_) => c
  }

  // ---------- the composed protocol ----------

  /** `sent[i]` is the status asked for by request i; a request may be delivered at any time after it was
      sent, any number of times, or never. `answers` holds every answer the kitchen ever gave. `applied`
      names the requests that moved the order, in that order. */
  datatype World = World(
    status: Status, client: Client, sent: seq<Status>, answers: set<(nat, Reply)>, applied: seq<nat>)

  ghost predicate Initial(w: World) {
    w.client == Waiting(0) && w.sent == [] && w.answers == {} && w.applied == []
  }

  /** The client takes a signal; entering an attempt sends its request. */
  function Signalled(w: World, signal: Signal): World {
    var c := React(w.client, signal);
    w.(client := c,
       sent := if c.Asking? && c != w.client && c.k < |STAGES| then w.sent + [STAGES[c.k]] else w.sent)
  }

  /** A signal the client can really get: a success must be one the kitchen gave to the request being
      waited for. A refusal may also come from elsewhere, such as rejected credentials, and a transient
      failure out of nowhere. */
  ghost predicate CanSignal(w: World, signal: Signal) {
    signal == Answer(Success) ==> w.sent != [] && (|w.sent| - 1, Success) in w.answers
  }

  /** The kitchen receives request i: it moves the order if the lifecycle allows it and refuses if not. */
  function Delivered(w: World, i: nat): World
    requires i < |w.sent|
  {
    if CanTransitionTo(w.status, w.sent[i])
    then w.(status := w.sent[i], applied := w.applied + [i], answers := w.answers + {(i, Success)})
    else w.(answers := w.answers + {(i, Permanent)})
  }

  ghost predicate Step(w: World, w': World) {
    || (exists signal :: CanSignal(w, signal) && w' == Signalled(w, signal))
    || (exists i :: 0 <= i < |w.sent| && w' == Delivered(w, i))
    || (exists to, actor :: LegalMove(w.status, to, actor) && w' == w.(status := to)) // somebody else
  }

  ghost predicate IsTrace(trace: seq<World>) {
    && trace != [] && Initial(trace[0])
    && forall n :: 0 < n < |trace| ==> Step(trace[n - 1], trace[n])
  }

  /** The statuses that the applied requests asked for, in order. */
  function AppliedOf(applied: seq<nat>, sent: seq<Status>): seq<Status>
    requires forall n :: 0 <= n < |applied| ==> applied[n] < |sent|
  {
    seq(|applied|, n requires 0 <= n < |applied| => sent[applied[n]])
  }

  function StageOf(c: Client): nat {
    match c
    case Waiting(k) => k
    case Asking(k, _) => k
    case Pausing(k, _) => k
    case Stopped(done) => done
  }

  /** Requests sent so far, at most: three per stage behind, and the attempts at this one. */
  function RequestBound(c: Client): nat {
    match c
    case Waiting(k) => ATTEMPTS * k
    case Asking(k, attempt) => ATTEMPTS * k + attempt
    case Pausing(k, attempt) => ATTEMPTS * k + attempt
    case Stopped(_) => ATTEMPTS * |STAGES|
  }

  ghost predicate ClientOk(c: Client) {
    match c
    case Waiting(k) => k < |STAGES|
    case Asking(k, attempt) => k < |STAGES| && 1 <= attempt <= ATTEMPTS
    case Pausing(k, attempt) => k < |STAGES| && 1 <= attempt <= ATTEMPTS
    case Stopped(done) => done <= |STAGES|
  }

  /** Nothing beyond the current stage has been asked for; the attempt waited for is for this stage. */
  ghost predicate SentOk(w: World) {
    && ClientOk(w.client) && |w.sent| <= RequestBound(w.client)
    && (w.client.Asking? ==> w.sent != [] && w.sent[|w.sent| - 1] == STAGES[w.client.k])
    && (forall i :: 0 <= i < |w.sent| ==> 1 <= Rung(w.sent[i]) <= 3 && Rung(w.sent[i]) <= StageOf(w.client) + 1)
  }

  /** The acknowledged stages are applied, at most one stage more is, in workflow order, and the order is
      at least that far; only applied requests were acknowledged. */
  ghost predicate AppliedOk(w: World) {
    && (forall n :: 0 <= n < |w.applied| ==> w.applied[n] < |w.sent| && Rung(w.sent[w.applied[n]]) == n + 1)
    && StageOf(w.client) <= |w.applied| <= StageOf(w.client) + 1
    && |w.applied| <= Rung(w.status) && |w.applied| <= 3
    && (forall i | (i, Success) in w.answers :: i in w.applied)
  }

  ghost predicate WorldOk(w: World) {
    SentOk(w) && AppliedOk(w)
  }

  /** A signal that sends nothing. */
  lemma QuietSignalKeeps(w: World, signal: Signal)
    requires WorldOk(w) && CanSignal(w, signal) && !React(w.client, signal).Asking?
    ensures WorldOk(Signalled(w, signal))
  {
    if signal == Answer(Success) && w.client.Asking? {
      Acknowledged(w);
    }
    hide Rung;
  }

  /** A signal that is ignored, or starts an attempt and sends its request. */
  lemma AskingSignalKeeps(w: World, signal: Signal)
    requires WorldOk(w) && React(w.client, signal).Asking?
    ensures WorldOk(Signalled(w, signal))
  {
    var w' := Signalled(w, signal);
    if w' != w {
      var k := w'.client.k;
      assert w'.sent == w.sent + [STAGES[k]] && Rung(STAGES[k]) == k + 1 && StageOf(w'.client) == StageOf(w.client);
      assert forall n :: 0 <= n < |w.applied| ==> w'.sent[w.applied[n]] == w.sent[w.applied[n]];
    }
    hide Rung;
  }

  lemma SignalKeeps(w: World, signal: Signal)
    requires WorldOk(w) && CanSignal(w, signal)
    ensures WorldOk(Signalled(w, signal))
  {
    hide WorldOk, CanSignal, Signalled;
    if React(w.client, signal).Asking? {
      AskingSignalKeeps(w, signal);
    } else {
      QuietSignalKeeps(w, signal);
    }
  }

  /** An acknowledged stage is one more applied stage. */
  lemma Acknowledged(w: World)
    requires WorldOk(w) && w.client.Asking? && w.sent != [] && (|w.sent| - 1, Success) in w.answers
    ensures |w.applied| == StageOf(w.client) + 1
  {
    var n :| 0 <= n < |w.applied| && w.applied[n] == |w.sent| - 1;
    assert Rung(w.sent[w.applied[n]]) == n + 1;
  }

  /** An accepted request is always for the first stage not applied yet. */
  lemma DeliveryKeeps(w: World, i: nat)
    requires WorldOk(w) && i < |w.sent|
    ensures WorldOk(Delivered(w, i))
  {
    if CanTransitionTo(w.status, w.sent[i]) {
      assert Rung(w.sent[i]) == Rung(w.status) + 1;
      assert Rung(w.sent[i]) == |w.applied| + 1;
      var applied := Delivered(w, i).applied;
      assert forall x :: x in applied <==> x in w.applied || x == i;
    }
  }

  /** Whatever others do, the order only moves further. */
  lemma OthersKeep(w: World, to: Status, actor: Actor)
    requires WorldOk(w) && LegalMove(w.status, to, actor)
    ensures WorldOk(w.(status := to))
  {
    assert Rung(to) > Rung(w.status);
  }

  lemma StepKeeps(w: World, w': World)
    requires WorldOk(w) && Step(w, w')
    ensures WorldOk(w')
  {
    if signal :| CanSignal(w, signal) && w' == Signalled(w, signal) {
      SignalKeeps(w, signal);
    } else if i :| 0 <= i < |w.sent| && w' == Delivered(w, i) {
      DeliveryKeeps(w, i);
    } else {
      var to, actor :| LegalMove(w.status, to, actor) && w' == w.(status := to);
      OthersKeep(w, to, actor);
    }
  }

  lemma {:induction false} TraceKeeps(trace: seq<World>)
    requires IsTrace(trace)
    ensures WorldOk(trace[|trace| - 1])
  {
    if |trace| > 1 {
      var n := |trace| - 1;
      TraceKeeps(trace[..n]);
      assert Step(trace[n - 1], trace[n]);
      hide WorldOk, Step;
      StepKeeps(trace[n - 1], trace[n]);
    }
  }

  lemma SafeWorld(w: World)
    requires WorldOk(w)
    ensures
      && (forall n :: 0 <= n < |w.applied| ==> w.applied[n] < |w.sent|)
      && AppliedOf(w.applied, w.sent) <= STAGES
      && |w.sent| <= 9
      && (w.client == Stopped(|STAGES|) ==> AppliedOf(w.applied, w.sent) == STAGES)
  {
    forall n | 0 <= n < |w.applied| ensures w.sent[w.applied[n]] == STAGES[n] {
      assert Rung(w.sent[w.applied[n]]) == n + 1;
    }
  }

  /** Retry safety: with requests and answers lost, delayed or duplicated, and other actors moving the
      order, the statuses one lifecycle gets applied are a prefix of accepted, cooking, ready, each once;
      at most nine requests are sent; and a lifecycle that ends with every stage acknowledged has
      applied all of them. */
  lemma RetrySafety(trace: seq<World>)
    requires IsTrace(trace)
    ensures
      var w := trace[|trace| - 1];
      && (forall n :: 0 <= n < |w.applied| ==> w.applied[n] < |w.sent|)
      && AppliedOf(w.applied, w.sent) <= [Accepted, Cooking, Ready]
      && |w.sent| <= 9
      && (w.client == Stopped(3) ==> AppliedOf(w.applied, w.sent) == [Accepted, Cooking, Ready])
  {
    TraceKeeps(trace);
    hide WorldOk;
    SafeWorld(trace[|trace| - 1]);
  }

  /** The kitchen of this protocol is the order service: a restaurant's forward move of its own order is
      accepted exactly when the lifecycle allows it, and refused for good otherwise. */
  lemma KitchenIsService(db: Db, restaurant: Id, order: Id, to: Status, url: string)
    requires order != NIL && restaurant != NIL && order in db.orders && db.orders[order].restaurant == restaurant
    requires to != Cancelled
    ensures var answer := Apply(db, ChangeStatus(restaurant, order, to, url));
            && (answer.Ok? <==> CanTransitionTo(db.orders[order].status, to))
            && (answer.Ok? ==> answer.value.orders[order].status == to && answer.value.dishes == db.dishes)
            && (answer.Err? ==> answer.error == InvalidStatusTransition)
  {
  }
}
