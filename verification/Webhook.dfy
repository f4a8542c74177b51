/** The webhook dispatcher: a bounded, non-blocking pool of delivery slots. A slot is filled before its
    delivery is started and given back after the delivery has returned, however it returned. */
module Webhook {

  const DEFAULT_TIMEOUT_MS: int := 5000
  const DEFAULT_IN_FLIGHT: int := 256

  /** `slots` counts filled slots of the channel. A delivery is starting when its slot is filled and its
      goroutine is not yet running, and ending when the goroutine has returned and its deferred receive
      has not yet emptied a slot. */
  datatype Pool = Pool(
    capacity: nat, slots: nat,
    starting: set<nat>, running: set<nat>, ending: set<nat>,
    taken: nat, freed: nat)

  datatype Verdict = Quiet | Started(id: nat) | Unencodable | Saturated

  /** How a delivery can go; its slot does not care. */
  datatype Delivery = NoRequest | Unreachable | Answered(code: int)

  function NewPool(maxInFlight: int): Pool {
    Pool(if maxInFlight <= 0 then DEFAULT_IN_FLIGHT else maxInFlight, 0, {}, {}, {}, 0, 0)
  }

  /** Dispatch up to and including its try-send, which returns at once either way. */
  function Called(p: Pool, url: string, encodable: bool): (Pool, Verdict) {
    if url == "" then (p, Quiet)
    else if !encodable then (p, Unencodable)
    else if p.slots >= p.capacity then (p, Saturated)
    else (p.(slots := p.slots + 1, starting := p.starting + {p.taken}, taken := p.taken + 1), Started(p.taken))
  }

  /** The goroutine of a delivery begins. */
  function Begun(p: Pool, id: nat): Pool {
    p.(starting := p.starting - {id}, running := p.running + {id})
  }

  /** The goroutine's body has returned. */
  function Returned(p: Pool, id: nat): Pool {
    p.(running := p.running - {id}, ending := p.ending + {id})
  }

  /** The deferred receive empties a slot. */
  function Freed(p: Pool, id: nat): Pool {
    p.(ending := p.ending - {id}, slots := if p.slots > 0 then p.slots - 1 else 0, freed := p.freed + 1)
  }

  // ---------- every interleaving ----------

  datatype Event = Call(url: string, encodable: bool) | Begin(id: nat) | Return(id: nat) | Free(id: nat)

  ghost predicate Follows(p: Pool, event: Event, p': Pool) {
    match event
    case Call(url, encodable) => p' == Called(p, url, encodable).0
    case Begin(id) => id in p.starting && p' == Begun(p, id)
    case Return(id) => id in p.running && p' == Returned(p, id)
    case Free(id) => id in p.ending && p' == Freed(p, id)
  }

  /** Events in any order that the deliveries allow. */
  ghost predicate Interleaving(pools: seq<Pool>, events: seq<Event>) {
    && |pools| == |events| + 1
    && pools[0] == NewPool(pools[0].capacity) && pools[0].capacity > 0
    && forall n :: 0 <= n < |events| ==> Follows(pools[n], events[n], pools[n + 1])
  }

  function InFlight(p: Pool): nat {
    |p.starting| + |p.running| + |p.ending|
  }

  ghost predicate PoolOk(p: Pool) {
    && p.slots == InFlight(p) && p.slots <= p.capacity
    && (forall id | id in p.starting :: id < p.taken && id !in p.running && id !in p.ending)
    && (forall id | id in p.running :: id < p.taken && id !in p.ending)
    && (forall id | id in p.ending :: id < p.taken)
    && p.taken == p.freed + p.slots
  }

  lemma Sizes(a: set<nat>, x: nat)
    ensures x in a ==> |a - {x}| == |a| - 1
    ensures x !in a ==> |a + {x}| == |a| + 1
  {
  }

  lemma CallKeeps(p: Pool, url: string, encodable: bool)
    requires PoolOk(p)
    ensures PoolOk(Called(p, url, encodable).0)
  {
    Sizes(p.starting, p.taken);
  }

  lemma BeginKeeps(p: Pool, id: nat)
    requires PoolOk(p) && id in p.starting
    ensures PoolOk(Begun(p, id))
  {
    Sizes(p.starting, id);
    Sizes(p.running, id);
  }

  lemma ReturnKeeps(p: Pool, id: nat)
    requires PoolOk(p) && id in p.running
    ensures PoolOk(Returned(p, id))
  {
    Sizes(p.running, id);
    Sizes(p.ending, id);
  }

  lemma FreeKeeps(p: Pool, id: nat)
    requires PoolOk(p) && id in p.ending
    ensures PoolOk(Freed(p, id))
  {
    Sizes(p.ending, id);
  }

  lemma FollowsKeeps(p: Pool, event: Event, p': Pool)
    requires PoolOk(p) && Follows(p, event, p')
    ensures PoolOk(p') && p'.capacity == p.capacity
  {
    hide PoolOk;
    match event
    case Call(url, encodable) => CallKeeps(p, url, encodable);
    case Begin(id) => BeginKeeps(p, id);
    case Return(id) => ReturnKeeps(p, id);
    case Free(id) => FreeKeeps(p, id);
  }

  lemma NewPoolOk(maxInFlight: int)
    ensures PoolOk(NewPool(maxInFlight))
  {
  }

  /** A call with an address, a payload that can be encoded, and fewer deliveries in flight than the pool
      allows. */
  ghost predicate CallsOut(p: Pool, event: Event) {
    event.Call? && event.url != "" && event.encodable && InFlight(p) < p.capacity
  }

  /** Such a call fills one slot and adds one delivery, with an id of its own, to those about to start; any
      other call changes nothing and says why. */
  lemma CallVerdict(p: Pool, url: string, encodable: bool)
    requires PoolOk(p)
    ensures var (p', verdict) := Called(p, url, encodable);
            && p'.capacity == p.capacity && p'.running == p.running && p'.ending == p.ending && p'.freed == p.freed
            && if CallsOut(p, Call(url, encodable))
               then
                 && verdict == Started(p.taken)
                 && p.taken !in p.starting + p.running + p.ending && p'.starting == p.starting + {p.taken}
                 && p'.slots == p.slots + 1 && p'.taken == p.taken + 1
               else
                 && p' == p
                 && verdict == if url == "" then Quiet else if !encodable then Unencodable else Saturated
  {
  }

  /** How many of the calls went out. */
  ghost function Outgoing(pools: seq<Pool>, events: seq<Event>): nat
    requires |pools| == |events| + 1
  {
    if events == [] then 0
    else
      var n := |events| - 1;
      Outgoing(pools[..n + 1], events[..n]) + if CallsOut(pools[n], events[n]) then 1 else 0
  }

  lemma {:induction false} PoolsOk(pools: seq<Pool>, events: seq<Event>)
    requires Interleaving(pools, events)
    ensures PoolOk(pools[|events|]) && pools[|events|].capacity == pools[0].capacity
    ensures pools[|events|].taken == Outgoing(pools, events)
  {
    if events != [] {
      var n := |events| - 1;
      PoolsOk(pools[..n + 1], events[..n]);
      assert pools[..n + 1][n] == pools[n];
      assert Follows(pools[n], events[n], pools[n + 1]);
      FollowsKeeps(pools[n], events[n], pools[n + 1]);
      if events[n].Call? {
        CallVerdict(pools[n], events[n].url, events[n].encodable);
      }
      hide PoolOk, Interleaving, CallsOut, Called;
    }
  }

  /** Bounded notification: whatever the interleaving, filled slots are the deliveries that are starting,
      running or ending; they never exceed the capacity, so neither do the running ones; every accepted
      call has filled one slot, and each is either filled still or given back once; all are free when no
      delivery is in flight; and a call is turned away exactly when all slots are filled. */
  lemma BoundedDeliveries(pools: seq<Pool>, events: seq<Event>)
    requires Interleaving(pools, events)
    ensures var p := pools[|events|];
            && p.slots == InFlight(p) <= p.capacity && p.capacity == pools[0].capacity
            && |p.running| <= p.capacity
            && Outgoing(pools, events) == p.freed + InFlight(p)
            && (InFlight(p) == 0 ==> p.slots == 0)
            && (forall url, encodable | url != "" && encodable ::
                  Called(p, url, encodable).1 == Saturated <==> InFlight(p) == p.capacity)
  {
    PoolsOk(pools, events);
    hide Interleaving, Outgoing;
  }

  // ---------- what is started ----------

  /** The deliveries whose goroutine has begun. */
  ghost function Launched(events: seq<Event>): set<nat> {
    set n | 0 <= n < |events| && events[n].Begin? :: events[n].id
  }

  /** Of the ids given out, those that have begun are those that are not waiting to. */
  ghost predicate LaunchOk(taken: nat, starting: set<nat>, launched: set<nat>) {
    && (forall id | id in starting :: id < taken && id !in launched)
    && (forall id | id in launched :: id < taken)
    && (forall id: nat | id < taken :: id in launched || id in starting)
  }

  lemma CallLaunches(taken: nat, starting: set<nat>, launched: set<nat>)
    requires LaunchOk(taken, starting, launched)
    ensures LaunchOk(taken + 1, starting + {taken}, launched)
  {
  }

  lemma BeginLaunches(taken: nat, starting: set<nat>, launched: set<nat>, id: nat)
    requires LaunchOk(taken, starting, launched) && id in starting
    ensures LaunchOk(taken, starting - {id}, launched + {id}) && id !in launched
  {
  }

  lemma LaunchKeeps(p: Pool, event: Event, p': Pool, launched: set<nat>)
    requires LaunchOk(p.taken, p.starting, launched) && Follows(p, event, p')
    ensures LaunchOk(p'.taken, p'.starting, if event.Begin? then launched + {event.id} else launched)
    ensures event.Begin? ==> event.id !in launched
  {
    CallLaunches(p.taken, p.starting, launched);
    if event.Begin? {
      BeginLaunches(p.taken, p.starting, launched, event.id);
    }
    hide LaunchOk;
  }

  lemma LaunchedOne(events: seq<Event>)
    requires events != []
    ensures var n := |events| - 1;
            Launched(events) ==
            if events[n].Begin? then Launched(events[..n]) + {events[n].id} else Launched(events[..n])
  {
    var n := |events| - 1;
    forall id
      ensures id in Launched(events) <==> id in Launched(events[..n]) || (events[n].Begin? && id == events[n].id)
    {
      if id in Launched(events) {
        var k :| 0 <= k < |events| && events[k].Begin? && events[k].id == id;
        assert k < n ==> events[..n][k] == events[k];
      }
      if id in Launched(events[..n]) {
        var k :| 0 <= k < n && events[..n][k].Begin? && events[..n][k].id == id;
        assert events[k].id == id;
      }
    }
  }

  /** No goroutine begins twice. */
  ghost predicate BeginOnce(events: seq<Event>) {
    forall m, n :: 0 <= m < n < |events| && events[m].Begin? && events[n].Begin? ==> events[m].id != events[n].id
  }

  lemma BeginsOnceMore(events: seq<Event>)
    requires events != [] && BeginOnce(events[..|events| - 1])
    requires events[|events| - 1].Begin? ==> events[|events| - 1].id !in Launched(events[..|events| - 1])
    ensures BeginOnce(events)
  {
    var front := events[..|events| - 1];
    forall m, n | 0 <= m < n < |events| && events[m].Begin? && events[n].Begin? ensures events[m].id != events[n].id {
      assert front[m] == events[m];
      if n < |front| {
        assert front[n] == events[n];
      } else {
        assert events[m].id in Launched(front);
      }
    }
  }

  lemma InterleavingFront(pools: seq<Pool>, events: seq<Event>)
    requires Interleaving(pools, events) && events != []
    ensures var n := |events| - 1;
            Interleaving(pools[..n + 1], events[..n]) && Follows(pools[n], events[n], pools[n + 1])
  {
    hide Follows;
  }

  lemma {:induction false} LaunchesOk(pools: seq<Pool>, events: seq<Event>)
    requires Interleaving(pools, events)
    ensures |pools| == |events| + 1 && LaunchOk(pools[|events|].taken, pools[|events|].starting, Launched(events))
    ensures BeginOnce(events)
  {
    if events != [] {
      var n := |events| - 1;
      InterleavingFront(pools, events);
      hide LaunchOk, Launched, PoolOk, Interleaving, Follows, BeginOnce;
      LaunchesOk(pools[..n + 1], events[..n]);
      LaunchKeeps(pools[n], events[n], pools[n + 1], Launched(events[..n]));
      LaunchedOne(events);
      BeginsOnceMore(events);
    }
  }

  /** Exactly the calls that went out are delivered: they are numbered from zero as they come, each number's
      goroutine begins at most once, no other ever begins, and when nothing is waiting to start all of them
      have begun. */
  lemma StartedAreCalled(pools: seq<Pool>, events: seq<Event>)
    requires Interleaving(pools, events)
    ensures var p, out := pools[|events|], Outgoing(pools, events);
            && (forall id | id in Launched(events) :: id < out)
            && (forall id :: 0 <= id < out ==> (id in Launched(events) <==> id !in p.starting))
            && (p.starting == {} ==> forall id :: 0 <= id < out ==> id in Launched(events))
            && BeginOnce(events)
  {
    PoolsOk(pools, events);
    LaunchesOk(pools, events);
    hide PoolOk, Interleaving, Outgoing, Launched, BeginOnce;
  }

  // ---------- the dispatcher ----------

  class HTTPWebhookDispatcher {
    const timeout: int
    const capacity: nat
    var slots: nat
    var starting: set<nat>
    var running: set<nat>
    var ending: set<nat>
    var taken: nat
    var freed: nat
    var delivered: nat

    constructor (timeout: int, maxInFlight: int)
      ensures State() == NewPool(maxInFlight) && Valid() && delivered == 0
      ensures this.timeout == if timeout > 0 then timeout else 5000
      ensures capacity == if maxInFlight > 0 then maxInFlight else 256
    {
      NewPoolOk(maxInFlight);
      hide PoolOk;
      this.timeout := if timeout <= 0 then DEFAULT_TIMEOUT_MS else timeout;
      capacity := if maxInFlight <= 0 then DEFAULT_IN_FLIGHT else maxInFlight;
      slots, starting, running, ending, taken, freed, delivered := 0, {}, {}, {}, 0, 0, 0;
    }

    ghost function State(): Pool
      reads this
    {
      Pool(capacity, slots, starting, running, ending, taken, freed)
    }

    ghost predicate Valid()
      reads this
    {
      PoolOk(State())
    }

    /** The try-send on the slot channel; a filled slot has its goroutine started next. */
    method Dispatch(url: string, encodable: bool) returns (verdict: Verdict)
      requires Valid()
      modifies this`slots, this`starting, this`taken
      ensures Valid() && (State(), verdict) == Called(old(State()), url, encodable)
      ensures url != "" && encodable && old(InFlight(State())) < capacity ==>
                && slots == old(slots) + 1 && starting == old(starting) + {old(taken)} && taken == old(taken) + 1
                && verdict == Started(old(taken))
    {
      if url == "" {
        return Quiet;
      }
      if !encodable {
        return Unencodable;
      }
      if slots >= capacity {
        return Saturated;
      }
      slots := slots + 1;
      starting := starting + {taken};
      verdict := Started(taken);
      taken := taken + 1;
      FollowsKeeps(old(State()), Call(url, encodable), State());
    }

    method Start(id: nat)
      requires Valid() && id in starting
      modifies this`starting, this`running
      ensures Valid() && State() == Begun(old(State()), id)
    {
      starting := starting - {id};
      running := running + {id};
      FollowsKeeps(old(State()), Begin(id), State());
    }

    /** The body of the delivery goroutine, with its three ways out. */
    method Deliver(id: nat, outcome: Delivery)
      requires Valid() && id in running
      modifies this`running, this`ending, this`delivered
      ensures Valid() && State() == Returned(old(State()), id)
      ensures delivered == old(delivered) + if outcome.Answered? && outcome.code < 400 then 1 else 0
    {
      match outcome {
        case NoRequest =>
        case Unreachable =>
        case Answered(code) =>
          if code < 400 {
            delivered := delivered + 1;
          }
      }
      running := running - {id};
      ending := ending + {id};
      FollowsKeeps(old(State()), Return(id), State());
    }

    /** The deferred receive. */
    method Release(id: nat)
      requires Valid() && id in ending
      modifies this`slots, this`ending, this`freed
      ensures Valid() && State() == Freed(old(State()), id)
    {
      assert |ending| > 0 by { assert id in ending; }
      slots := slots - 1;
      ending := ending - {id};
      freed := freed + 1;
      FollowsKeeps(old(State()), Free(id), State());
    }
  }
}
