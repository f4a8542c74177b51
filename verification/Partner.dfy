/** The partner simulator's own code: the loops that drive one order through the kitchen, and the bounded
    event history. What the outside world does to a lifecycle is given as two oracles. */
module Partner {
  import opened Domain
  import opened Retry
  import Audit

  const MAX_EVENTS_HISTORY: nat := 1000

  /** `timer(n)`: the n-th wait ends by its timer and not by cancellation; `reply(n)`: what comes back
      for the n-th request. */
  datatype Outside = Outside(timer: nat -> bool, reply: nat -> Reply)

  /** A lifecycle in progress: its state, the requests it has sent and the waits it has made. */
  datatype Progress = Progress(client: Client, requests: seq<Status>, waits: nat)

  /** What the lifecycle gets next, in the state it is in. */
  function NextSignal(p: Progress, outside: Outside): Signal {
    if p.client.Asking? then Answer(if p.requests == [] then Transient else outside.reply(|p.requests| - 1))
    else if outside.timer(p.waits) then Tick else CtxDone
  }

  function Advance(p: Progress, outside: Outside): Progress {
    var c := React(p.client, NextSignal(p, outside));
    Progress(c,
             if c.Asking? && c.k < |STAGES| then p.requests + [STAGES[c.k]] else p.requests,
             if p.client.Asking? then p.waits else p.waits + 1)
  }

  /** Signals a client can still take. */
  function Remaining(c: Client): nat {
    match c
    case Waiting(k) => if k < |STAGES| then 8 * (|STAGES| - k) else 1
    case Asking(k, attempt) => if k < |STAGES| && attempt <= ATTEMPTS then 8 * (|STAGES| - k) - 2 * attempt + 1 else 2
    case Pausing(k, attempt) => if k < |STAGES| && attempt <= ATTEMPTS then 8 * (|STAGES| - k) - 2 * attempt else 1
    case Stopped(_) => 0
  }

  lemma AdvanceEnds(p: Progress, outside: Outside)
    requires ClientOk(p.client) && !p.client.Stopped?
    ensures ClientOk(Advance(p, outside).client)
    ensures Remaining(Advance(p, outside).client) < Remaining(p.client)
  {
  }

  /** The lifecycle from here to its end. */
  ghost function Play(p: Progress, outside: Outside): Progress
    requires ClientOk(p.client)
    decreases Remaining(p.client)
  {
    if p.client.Stopped? then p
    else
      AdvanceEnds(p, outside);
      Play(Advance(p, outside), outside)
  }

  /** The lifecycle of these loops is the client of the composed protocol: the same signal moves both to
      the same state and sends the same request. */
  lemma SameClient(p: Progress, outside: Outside, w: World)
    requires ClientOk(p.client) && !p.client.Stopped? && w.client == p.client && w.sent == p.requests
    ensures var w' := Signalled(w, NextSignal(p, outside));
            w'.client == Advance(p, outside).client && w'.sent == Advance(p, outside).requests
  {
    assert React(p.client, NextSignal(p, outside)) != p.client;
  }

  lemma PlayStep(p: Progress, outside: Outside)
    requires ClientOk(p.client) && !p.client.Stopped?
    ensures ClientOk(Advance(p, outside).client) && Play(p, outside) == Play(Advance(p, outside), outside)
  {
    AdvanceEnds(p, outside);
  }

  /** The same lifecycle, a few signals later. */
  ghost predicate Continues(p: Progress, later: Progress, outside: Outside) {
    ClientOk(p.client) && ClientOk(later.client) && Play(p, outside) == Play(later, outside)
  }

  /** Where a stage leaves the client. */
  function AfterStage(k: nat, ok: bool): Client {
    if !ok then Stopped(k) else if k + 1 < |STAGES| then Waiting(k + 1) else Stopped(k + 1)
  }

  // ---------- what a stage amounts to ----------

  /** Request i of the stage fails transiently and is followed by its whole back-off. */
  predicate FailedAt(outside: Outside, r: nat, w: nat, i: nat) {
    outside.reply(r + i) == Transient && outside.timer(w + i)
  }

  /** Requests from number r on and waits from number w on: the first j requests fail transiently and each
      is followed by its whole back-off. */
  ghost predicate Retried(outside: Outside, r: nat, w: nat, j: nat) {
    forall i: nat | i < j :: FailedAt(outside, r, w, i)
  }

  /** Request j of the stage is the one that succeeds. */
  ghost predicate SucceedsAt(outside: Outside, r: nat, w: nat, j: nat) {
    Retried(outside, r, w, j) && outside.reply(r + j) == Success
  }

  /** The stage is given up after request j: refused for good, cancelled during the back-off, or the third
      transient failure. */
  ghost predicate GivesUpAt(outside: Outside, r: nat, w: nat, j: nat) {
    && Retried(outside, r, w, j)
    && (outside.reply(r + j) == Permanent
        || (outside.reply(r + j) == Transient && (!outside.timer(w + j) || j == 2)))
  }

  function Copies(status: Status, n: nat): (requests: seq<Status>) {
    seq(n, i requires 0 <= i < n => status)
  }

  lemma OneSuccess(outside: Outside, r: nat, w: nat, i: nat, j: nat)
    requires SucceedsAt(outside, r, w, i) && SucceedsAt(outside, r, w, j)
    ensures i == j
  {
    assert i < j ==> FailedAt(outside, r, w, i);
    assert j < i ==> FailedAt(outside, r, w, j);
  }

  lemma GivenUpFails(outside: Outside, r: nat, w: nat, i: nat, j: nat)
    requires GivesUpAt(outside, r, w, i) && i < 3 && j < 3
    ensures !SucceedsAt(outside, r, w, j)
  {
    assert j < i ==> FailedAt(outside, r, w, j);
    assert SucceedsAt(outside, r, w, j) && i < j ==> FailedAt(outside, r, w, i);
  }

  /** Requests, and waits, of the stages that took tries[0], tries[1], ... retries: one request more than
      retries for each, and as many waits, the stage's own timer included. */
  function Spent(tries: seq<nat>): nat {
    if tries == [] then 0 else Spent(tries[..|tries| - 1]) + tries[|tries| - 1] + 1
  }

  /** From request r and wait w on, the first stages pass, each after its timer and so many retries. */
  ghost predicate Passes(outside: Outside, r: nat, w: nat, tries: seq<nat>) {
    tries == []
    || (var n := |tries| - 1;
        var spent := Spent(tries[..n]);
        && Passes(outside, r, w, tries[..n])
        && outside.timer(w + spent) && tries[n] < 3 && SucceedsAt(outside, r + spent, w + spent + 1, tries[n]))
  }

  /** The requests of those stages. */
  function AskedIn(tries: seq<nat>): seq<Status>
    requires |tries| <= 3
  {
    if tries == [] then []
    else
      var n := |tries| - 1;
      AskedIn(tries[..n]) + Copies([Accepted, Cooking, Ready][n], tries[n] + 1)
  }

  lemma {:induction false} PassesPrefix(outside: Outside, r: nat, w: nat, tries: seq<nat>, n: nat)
    requires Passes(outside, r, w, tries) && n <= |tries|
    ensures Passes(outside, r, w, tries[..n])
  {
    if n < |tries| {
      PassesPrefix(outside, r, w, tries[..|tries| - 1], n);
      assert tries[..|tries| - 1][..n] == tries[..n];
    } else {
      assert tries[..n] == tries;
    }
  }

  lemma {:induction false} PassesUnique(outside: Outside, r: nat, w: nat, a: seq<nat>, b: seq<nat>)
    requires Passes(outside, r, w, a) && Passes(outside, r, w, b) && |a| == |b|
    ensures a == b
  {
    if a != [] {
      var n := |a| - 1;
      PassesUnique(outside, r, w, a[..n], b[..n]);
      OneSuccess(outside, r + Spent(a[..n]), w + Spent(a[..n]) + 1, a[n], b[n]);
      assert a == a[..n] + [a[n]] && b == b[..n] + [b[n]];
    }
  }

  lemma PassesLast(outside: Outside, r: nat, w: nat, tries: seq<nat>, j: nat)
    requires Passes(outside, r, w, tries + [j])
    ensures var spent := Spent(tries);
            && outside.timer(w + spent) && j < 3 && SucceedsAt(outside, r + spent, w + spent + 1, j)
  {
    assert (tries + [j])[..|tries|] == tries;
    hide SucceedsAt;
  }

  /** A lifecycle that has passed some stages and failed the next one does not pass more. */
  lemma NoMorePasses(outside: Outside, r: nat, w: nat, tries: seq<nat>, more: seq<nat>)
    requires Passes(outside, r, w, tries) && Passes(outside, r, w, more) && |more| > |tries|
    ensures var spent := Spent(tries);
            && outside.timer(w + spent)
            && more[|tries|] < 3 && SucceedsAt(outside, r + spent, w + spent + 1, more[|tries|])
  {
    var n := |tries|;
    hide *;
    PassesPrefix(outside, r, w, more, n + 1);
    PassesPrefix(outside, r, w, more, n);
    PassesUnique(outside, r, w, tries, more[..n]);
    assert more[..n + 1] == tries + [more[n]];
    PassesLast(outside, r, w, tries, more[n]);
  }

  /** The outcome of a whole lifecycle that began with request r and wait w: `done` stages passed, with the
      requests they take, and no more of the three could. */
  ghost predicate Outcome(outside: Outside, r: nat, w: nat, before: seq<Status>, after: seq<Status>, done: nat) {
    && done <= 3
    && (exists tries ::
          |tries| == done && Passes(outside, r, w, tries) && before + AskedIn(tries) <= after
          && (done == 3 ==> after == before + AskedIn(tries)))
    && (forall more :: Passes(outside, r, w, more) && |more| <= 3 ==> |more| <= done)
  }

  ghost predicate StageFails(outside: Outside, r: nat, w: nat) {
    forall j: nat | j < 3 :: !SucceedsAt(outside, r, w, j)
  }

  lemma NoneSucceeds(outside: Outside, r: nat, w: nat)
    requires !exists j: nat :: j < 3 && SucceedsAt(outside, r, w, j)
    ensures StageFails(outside, r, w)
  {
    hide SucceedsAt;
  }

  lemma OutcomeIs(outside: Outside, r: nat, w: nat, before: seq<Status>, after: seq<Status>, tries: seq<nat>)
    requires |tries| <= 3 && Passes(outside, r, w, tries) && before + AskedIn(tries) <= after
    requires |tries| == 3 ==> after == before + AskedIn(tries)
    requires |tries| == 3
             || !outside.timer(w + Spent(tries))
             || StageFails(outside, r + Spent(tries), w + Spent(tries) + 1)
    ensures Outcome(outside, r, w, before, after, |tries|)
  {
    hide Passes, Spent, SucceedsAt, AskedIn;
    forall more | Passes(outside, r, w, more) && |more| <= 3 ensures |more| <= |tries| {
      if |more| > |tries| {
        NoMorePasses(outside, r, w, tries, more);
      }
    }
  }

  /** The lifecycle completes if and only if there is a number of retries, at most two, with which each of its
      three stages passes. */
  lemma CompletesExactly(outside: Outside, r: nat, w: nat, before: seq<Status>, after: seq<Status>, done: nat)
    requires Outcome(outside, r, w, before, after, done)
    ensures done == 3 <==> exists tries :: |tries| == 3 && Passes(outside, r, w, tries)
  {
    hide Passes, AskedIn;
  }

  lemma NothingAsked(outside: Outside, r: nat, w: nat, stage: Status)
    ensures Copies(stage, 0) == [] && Retried(outside, r, w, 0)
  {
  }

  lemma AskedAgain(requests: seq<Status>, stage: Status, n: nat)
    ensures requests + Copies(stage, n) + [stage] == requests + Copies(stage, n + 1)
  {
  }

  /** The lifecycle has passed these stages, and has sent and waited no more than they take. */
  ghost predicate Through(outside: Outside, r: nat, w: nat, before: seq<Status>, tries: seq<nat>,
                          requests: seq<Status>, waits: nat) {
    && |tries| <= 3 && Passes(outside, r, w, tries)
    && requests == before + AskedIn(tries) && |before| == r
    && |requests| == r + Spent(tries) && waits == w + Spent(tries)
  }

  lemma ThroughNone(outside: Outside, before: seq<Status>, w: nat)
    ensures Through(outside, |before|, w, before, [], before, w)
  {
    NonePassed(outside, |before|, w);
  }

  lemma ThroughOne(outside: Outside, r: nat, w: nat, before: seq<Status>, tries: seq<nat>,
                   requests: seq<Status>, waits: nat, j: nat)
    requires Through(outside, r, w, before, tries, requests, waits) && |tries| < 3
    requires outside.timer(waits) && j < 3 && SucceedsAt(outside, |requests|, waits + 1, j)
    ensures Through(outside, r, w, before, tries + [j],
                    requests + Copies([Accepted, Cooking, Ready][|tries|], j + 1), waits + 1 + j)
  {
    hide Passes, Spent, AskedIn, SucceedsAt, Copies;
    PassedOne(outside, r, w, tries, j);
    CopiesSize([Accepted, Cooking, Ready][|tries|], j + 1);
  }

  lemma ThroughStops(outside: Outside, r: nat, w: nat, before: seq<Status>, tries: seq<nat>,
                     requests: seq<Status>, waits: nat, after: seq<Status>)
    requires Through(outside, r, w, before, tries, requests, waits) && requests <= after
    requires |tries| == 3 ==> after == requests
    requires |tries| == 3 || !outside.timer(waits) || StageFails(outside, |requests|, waits + 1)
    ensures Outcome(outside, r, w, before, after, |tries|)
  {
    hide Passes, Spent, AskedIn, SucceedsAt, Outcome, StageFails;
    OutcomeIs(outside, r, w, before, after, tries);
  }

  lemma CopiesSize(stage: Status, n: nat)
    ensures |Copies(stage, n)| == n
  {
  }

  /** Where request j leaves the stage. */
  lemma StageEnds(outside: Outside, r: nat, w: nat, j: nat)
    requires Retried(outside, r, w, j)
    ensures outside.reply(r + j) == Success ==> SucceedsAt(outside, r, w, j)
    ensures outside.reply(r + j) == Permanent ==> GivesUpAt(outside, r, w, j)
    ensures outside.reply(r + j) == Transient && !outside.timer(w + j) ==> GivesUpAt(outside, r, w, j)
    ensures outside.reply(r + j) == Transient && outside.timer(w + j) ==>
              Retried(outside, r, w, j + 1) && (j == 2 ==> GivesUpAt(outside, r, w, j))
  {
    assert outside.reply(r + j) == Transient && outside.timer(w + j) ==> FailedAt(outside, r, w, j);
  }

  lemma SucceedsOnce(outside: Outside, r: nat, w: nat, j: nat)
    requires SucceedsAt(outside, r, w, j)
    ensures forall i: nat :: SucceedsAt(outside, r, w, i) ==> i == j
  {
    forall i: nat | SucceedsAt(outside, r, w, i) ensures i == j {
      OneSuccess(outside, r, w, i, j);
    }
  }

  lemma GivenUp(outside: Outside, r: nat, w: nat, i: nat)
    requires GivesUpAt(outside, r, w, i) && i < 3
    ensures forall j: nat :: j < 3 ==> !SucceedsAt(outside, r, w, j)
  {
    forall j: nat | j < 3 ensures !SucceedsAt(outside, r, w, j) {
      GivenUpFails(outside, r, w, i, j);
    }
  }

  /** A stage's timer, or the end of the server. */
  lemma WaitedFor(p: Progress, outside: Outside)
    requires ClientOk(p.client) && p.client.Waiting?
    ensures Play(p, outside) ==
            if outside.timer(p.waits)
            then Play(Progress(Asking(p.client.k, 1), p.requests + [STAGES[p.client.k]], p.waits + 1), outside)
            else Play(Progress(Stopped(p.client.k), p.requests, p.waits + 1), outside)
  {
    PlayStep(p, outside);
  }

  lemma AskingAdvances(k: nat, attempt: nat, requests: seq<Status>, waits: nat, outside: Outside)
    requires k < |STAGES| && requests != []
    ensures Advance(Progress(Asking(k, attempt), requests, waits), outside) ==
            match outside.reply(|requests| - 1)
            case Success => Progress(AfterStage(k, true), requests, waits)
            case Permanent => Progress(Stopped(k), requests, waits)
            case Transient => Progress(Pausing(k, attempt), requests, waits)
  {
  }

  lemma PausingAdvances(k: nat, attempt: nat, requests: seq<Status>, waits: nat, outside: Outside)
    requires k < |STAGES| && 1 <= attempt <= ATTEMPTS
    ensures Advance(Progress(Pausing(k, attempt), requests, waits), outside) ==
            if !outside.timer(waits) || attempt == ATTEMPTS then Progress(Stopped(k), requests, waits + 1)
            else Progress(Asking(k, attempt + 1), requests + [STAGES[k]], waits + 1)
  {
  }

  /** An answer, and after a transient one the back-off. */
  lemma AnsweredWith(k: nat, attempt: nat, requests: seq<Status>, waits: nat, outside: Outside)
    requires k < |STAGES| && 1 <= attempt <= ATTEMPTS && requests != []
    ensures var p := Progress(Asking(k, attempt), requests, waits);
            Play(p, outside) ==
            match outside.reply(|requests| - 1)
            case Success => Play(Progress(AfterStage(k, true), requests, waits), outside)
            case Permanent => Play(Progress(Stopped(k), requests, waits), outside)
            case Transient =>
              if !outside.timer(waits) || attempt == ATTEMPTS
              then Play(Progress(Stopped(k), requests, waits + 1), outside)
              else Play(Progress(Asking(k, attempt + 1), requests + [STAGES[k]], waits + 1), outside)
  {
    var p := Progress(Asking(k, attempt), requests, waits);
    hide Play, Remaining, Advance, React;
    AskingAdvances(k, attempt, requests, waits, outside);
    PlayStep(p, outside);
    if outside.reply(|requests| - 1) == Transient {
      PausingAdvances(k, attempt, requests, waits, outside);
      PlayStep(Progress(Pausing(k, attempt), requests, waits), outside);
    }
  }

  lemma NonePassed(outside: Outside, r: nat, w: nat)
    ensures Passes(outside, r, w, []) && Spent([]) == 0 && AskedIn([]) == []
  {
  }

  lemma PassedOne(outside: Outside, r: nat, w: nat, tries: seq<nat>, j: nat)
    requires Passes(outside, r, w, tries) && outside.timer(w + Spent(tries))
    requires j < 3 && SucceedsAt(outside, r + Spent(tries), w + Spent(tries) + 1, j)
    ensures Passes(outside, r, w, tries + [j]) && Spent(tries + [j]) == Spent(tries) + j + 1
    ensures |tries| < 3 ==> AskedIn(tries + [j]) == AskedIn(tries) + Copies([Accepted, Cooking, Ready][|tries|], j + 1)
  {
    assert (tries + [j])[..|tries|] == tries;
  }

  class PartnerServer<Event(0)> {
    var events: seq<Event>
    ghost var received: seq<Event>
    var requests: seq<Status>
    var waits: nat
    const outside: Outside

    constructor (outside: Outside)
      ensures Valid() && received == [] && requests == [] && waits == 0 && this.outside == outside
    {
      this.outside := outside;
      events, received, requests, waits := [], [], [], 0;
    }

    /** The history is the latest events, a thousand of them at most. */
    ghost predicate Valid()
      reads this
    {
      events == if |received| <= MAX_EVENTS_HISTORY then received else received[|received| - MAX_EVENTS_HISTORY..]
    }

    method Remember(event: Event)
      requires Valid()
      modifies this`events, this`received
      ensures Valid() && received == old(received) + [event] && event in events
      ensures events == if |received| <= 1000 then received else received[|received| - 1000..]
    {
      if |events| >= MAX_EVENTS_HISTORY {
        events := events[1..];
      }
      events := events + [event];
      received := received + [event];
      assert events[|events| - 1] == event;
    }

    method ListEvents() returns (copied: seq<Event>)
      requires Valid()
      ensures copied == events
    {
      copied := [];
      for i := 0 to |events|
        invariant copied == events[..i]
      {
        copied := copied + [events[i]];
      }
    }

    ghost function At(client: Client): Progress
      reads this
    {
      Progress(client, requests, waits)
    }

    /** One PATCH request and its answer. */
    method UpdateOrderStatus(status: Status) returns (reply: Reply)
      modifies this`requests
      ensures requests == old(requests) + [status] && reply == outside.reply(|old(requests)|)
    {
      requests := requests + [status];
      reply := outside.reply(|requests| - 1);
    }

    /** select { ctx.Done, time.After }. */
    method Wait() returns (timedOut: bool)
      modifies this`waits
      ensures waits == old(waits) + 1 && timedOut == outside.timer(old(waits))
    {
      timedOut := outside.timer(waits);
      waits := waits + 1;
    }

    /** updateOrderStatusWithRetry for stage k, entered when the stage's timer has fired. It succeeds exactly
        when one of three requests does, each failure before it being transient and followed by its whole
        back-off; it sends no request beyond the one that decides. */
    method UpdateOrderStatusWithRetry(k: nat) returns (ok: bool)
      requires k < 3
      modifies this`requests, this`waits
      ensures ok <==> exists j: nat :: j < 3 && SucceedsAt(outside, old(|requests|), old(waits), j)
      ensures forall j: nat :: j < 3 && SucceedsAt(outside, old(|requests|), old(waits), j) ==>
                requests == old(requests) + Copies([Accepted, Cooking, Ready][k], j + 1) && waits == old(waits) + j
      ensures !ok ==> exists j: nat :: j < 3 && GivesUpAt(outside, old(|requests|), old(waits), j)
                                       && requests == old(requests) + Copies([Accepted, Cooking, Ready][k], j + 1)
      ensures Continues(old(Progress(Asking(k, 1), requests + [STAGES[k]], waits)), At(AfterStage(k, ok)), outside)
    {
      hide Play, Remaining, SucceedsAt, GivesUpAt, Retried, Copies, React, Advance;
      ghost var start := Progress(Asking(k, 1), requests + [STAGES[k]], waits);
      ghost var r, w, stage := |requests|, waits, [Accepted, Cooking, Ready][k];
      NothingAsked(outside, r, w, stage);
      assert requests == requests + Copies(stage, 0);
      for attempt := 1 to ATTEMPTS + 1
        invariant Play(start, outside) ==
                  Play(if attempt <= ATTEMPTS then Progress(Asking(k, attempt), requests + [STAGES[k]], waits)
                       else At(Stopped(k)), outside)
        invariant requests == old(requests) + Copies(stage, attempt - 1) && |requests| == r + attempt - 1
        invariant waits == w + attempt - 1 && Retried(outside, r, w, attempt - 1)
        invariant attempt > 3 ==> GivesUpAt(outside, r, w, 2)
      {
        var reply := UpdateOrderStatus(STAGES[k]);
        AskedAgain(old(requests), stage, attempt - 1);
        StageEnds(outside, r, w, attempt - 1);
        AnsweredWith(k, attempt, requests, waits, outside);
        if reply == Success {
          SucceedsOnce(outside, r, w, attempt - 1);
          return true;
        }
        if reply == Permanent {
          GivenUp(outside, r, w, attempt - 1);
          return false;
        }
        var timedOut := Wait();
        if !timedOut {
          GivenUp(outside, r, w, attempt - 1);
          return false;
        }
      }
      GivenUp(outside, r, w, 2);
      return false;
    }

    /** One turn of the lifecycle's loop: the stage's timer, then its requests. */
    method CookStage(k: nat, ghost tries: seq<nat>, ghost r: nat, ghost w: nat, ghost before: seq<Status>)
      returns (ok: bool, ghost more: seq<nat>)
      requires k < 3 && |tries| == k && Through(outside, r, w, before, tries, requests, waits)
      modifies this`requests, this`waits
      ensures ok ==> |more| == k + 1 && Through(outside, r, w, before, more, requests, waits)
      ensures !ok ==> Outcome(outside, r, w, before, requests, k)
      ensures Continues(old(At(Waiting(k))), At(AfterStage(k, ok)), outside)
    {
      hide Play, Remaining, SucceedsAt, GivesUpAt, Copies, Through, Outcome, Advance, StageFails;
      more := tries;
      ghost var requests0, waits0 := requests, waits;
      var timedOut := Wait();
      WaitedFor(old(At(Waiting(k))), outside);
      if !timedOut {
        ThroughStops(outside, r, w, before, tries, requests0, waits0, requests);
        return false, more;
      }
      ok := UpdateOrderStatusWithRetry(k);
      if ok {
        ghost var j: nat :| j < 3 && SucceedsAt(outside, |requests0|, waits0 + 1, j);
        ThroughOne(outside, r, w, before, tries, requests0, waits0, j);
        more := tries + [j];
      } else {
        NoneSucceeds(outside, |requests0|, waits0 + 1);
        ThroughStops(outside, r, w, before, tries, requests0, waits0, requests);
      }
    }

    /** simulateCookingLifecycle: stage after stage, until one fails or the server closes. It counts the
        stages that pass. */
    method SimulateCookingLifecycle() returns (done: nat)
      modifies this`requests, this`waits
      ensures Outcome(outside, old(|requests|), old(waits), old(requests), requests, done)
      ensures Continues(old(At(Waiting(0))), At(Stopped(done)), outside)
    {
      hide Play, Through, Outcome;
      ghost var start := At(Waiting(0));
      ghost var before, r, w := requests, |requests|, waits;
      ghost var tries: seq<nat> := [];
      ThroughNone(outside, before, w);
      for k := 0 to |STAGES|
        invariant Continues(start, At(if k < |STAGES| then Waiting(k) else Stopped(k)), outside)
        invariant |tries| == k && Through(outside, r, w, before, tries, requests, waits)
      {
        var ok, more := CookStage(k, tries, r, w, before);
        if !ok {
          return k;
        }
        tries := more;
      }
      ThroughStops(outside, r, w, before, tries, requests, waits, requests);
      return |STAGES|;
    }
  }

  // ---------- what a lifecycle sends ----------

  /** The requests come stage by stage: as many attempts at one as were needed, three at most. */
  ghost predicate RequestsOk(p: Progress) {
    && ClientOk(p.client)
    && |p.requests| <= RequestBound(p.client)
    && (p.client.Asking? ==> p.requests != [] && p.requests[|p.requests| - 1] == STAGES[p.client.k])
    && (forall i :: 0 <= i < |p.requests| ==>
          p.requests[i] in STAGES && Audit.Rung(p.requests[i]) <= StageOf(p.client) + 1)
    && (forall i, j :: 0 <= i < j < |p.requests| ==> Audit.Rung(p.requests[i]) <= Audit.Rung(p.requests[j]))
  }

  lemma ReactBound(p: Progress, outside: Outside)
    requires ClientOk(p.client) && !p.client.Stopped?
    ensures var c := React(p.client, NextSignal(p, outside));
            && ClientOk(c) && StageOf(c) >= StageOf(p.client)
            && RequestBound(c) >= RequestBound(p.client) + if c.Asking? then 1 else 0
  {
  }

  /** The next request, if there is one, asks for the stage now being asked for. */
  lemma RequestsGrow(p: Progress, next: Progress)
    requires RequestsOk(p) && ClientOk(next.client) && StageOf(next.client) >= StageOf(p.client)
    requires RequestBound(next.client) >= RequestBound(p.client) + if next.client.Asking? then 1 else 0
    requires next.requests == if next.client.Asking? then p.requests + [STAGES[next.client.k]] else p.requests
    ensures RequestsOk(next)
  {
    if next.client.Asking? {
      assert Audit.Rung(STAGES[next.client.k]) == StageOf(next.client) + 1;
    }
    hide RequestBound, Audit.Rung;
  }

  lemma AdvanceSends(p: Progress, outside: Outside)
    requires RequestsOk(p) && !p.client.Stopped?
    ensures RequestsOk(Advance(p, outside))
  {
    ReactBound(p, outside);
    hide React, NextSignal, RequestBound, StageOf, Audit.Rung;
    RequestsGrow(p, Advance(p, outside));
  }

  /** A whole lifecycle sends at most nine requests, never goes back to an earlier stage, and every stage
      it counts as done was acknowledged. */
  lemma {:induction false} PlaySends(p: Progress, outside: Outside)
    requires RequestsOk(p)
    ensures Play(p, outside).client.Stopped? && RequestsOk(Play(p, outside))
    decreases Remaining(p.client)
  {
    if !p.client.Stopped? {
      AdvanceEnds(p, outside);
      AdvanceSends(p, outside);
      PlaySends(Advance(p, outside), outside);
    }
  }

  lemma LifecycleRequests(outside: Outside)
    ensures var end := Play(Progress(Waiting(0), [], 0), outside);
            && end.client.Stopped? && |end.requests| <= 9
            && (forall i, j :: 0 <= i < j < |end.requests| ==>
                  Audit.Rung(end.requests[i]) <= Audit.Rung(end.requests[j]))
  {
    PlaySends(Progress(Waiting(0), [], 0), outside);
  }
}
