/**
 Idempotency keys: a request claims its key for a lease, and either fulfils the key with the
 payment it made or gives it back.
 */
module Requests {
  import opened Options
  import opened Facts

  const REQUEST_TTL_SECS: nat := 86400

  type RequestKey = string

  /** A row of the `requests` table. */
  datatype Held = Held(fingerprint: string, paymentId: Option<Id>, claimedAt: Time, leaseUntil: Time)

  datatype Claim = Mine | InFlight | Mismatch | Done(paymentId: Id)

  type Table = map<RequestKey, Held>

  function Answer(table: Table, key: RequestKey, fingerprint: string, now: Time): Claim {
    if key !in table then Mine
    else
      var held := table[key];
      if held.fingerprint != fingerprint then Mismatch
      else if held.paymentId.Some? then Done(held.paymentId.value)
      else if held.leaseUntil > now then InFlight
      else Mine
  }

  function Claimed(table: Table, key: RequestKey, fingerprint: string, lease: nat, now: Time): Table {
    if !Answer(table, key, fingerprint, now).Mine? then table
    else if key in table then table[key := table[key].(claimedAt := now, leaseUntil := now + lease)]
    else table[key := Held(fingerprint, None, now, now + lease)]
  }

  function Fulfilled(table: Table, key: RequestKey, paymentId: Id): Table {
    if key in table then table[key := table[key].(paymentId := Some(paymentId))] else table
  }

  function Released(table: Table, key: RequestKey): Table {
    if key in table && table[key].paymentId.None? then table - {key} else table
  }

  function Stale(table: Table, now: Time): set<RequestKey> {
    set key | key in table && table[key].claimedAt <= now - REQUEST_TTL_SECS
  }

  class Book {
    var requests: Table

    constructor ()
      ensures requests == map[]
    {
      requests := map[];
    }

    method ClaimKey(key: RequestKey, fingerprint: string, lease: nat, now: Time) returns (claim: Claim)
      modifies this
      ensures claim == Answer(old(requests), key, fingerprint, now)
      ensures requests == Claimed(old(requests), key, fingerprint, lease, now)
      ensures claim.Mine? ==> key in requests && requests[key] == Held(fingerprint, None, now, now + lease)
      ensures forall other :: other != key || !claim.Mine? ==>
        (other in requests <==> other in old(requests))
        && (other in requests ==> requests[other] == old(requests)[other])
    {
      if key in requests {
        var held := requests[key];
        if held.fingerprint != fingerprint { return Mismatch; }
        if held.paymentId.Some? { return Done(held.paymentId.value); }
        if held.leaseUntil > now { return InFlight; }
      }
      requests := requests[key :=
        if key in requests then requests[key].(claimedAt := now, leaseUntil := now + lease)
        else Held(fingerprint, None, now, now + lease)];
      return Mine;
    }

    method FulfillKey(key: RequestKey, paymentId: Id)
      modifies this
      ensures requests == Fulfilled(old(requests), key, paymentId)
      ensures requests.Keys == old(requests).Keys
      ensures forall other :: other in requests ==>
        (requests[other] == if other == key then old(requests)[key].(paymentId := Some(paymentId))
                            else old(requests)[other])
    {
      if key in requests { requests := requests[key := requests[key].(paymentId := Some(paymentId))]; }
    }

    method ReleaseKey(key: RequestKey)
      modifies this
      ensures requests == Released(old(requests), key)
      ensures forall other :: other in requests <==>
        other in old(requests) && (other == key ==> old(requests)[other].paymentId.Some?)
      ensures forall other :: other in requests ==> requests[other] == old(requests)[other]
    {
      if key in requests && requests[key].paymentId.None? { requests := requests - {key}; }
    }

    /** The part of the daily sweep that forgets requests. */
    method Prune(now: Time)
      modifies this
      ensures requests == old(requests) - Stale(old(requests), now)
      ensures forall key ::
        key in requests <==> key in old(requests) && now < old(requests)[key].claimedAt + REQUEST_TTL_SECS
    {
      requests := requests - Stale(requests, now);
    }
  }

  // ---------------------------------------------------------------- runs

  /** A request at work on a key it was told is its own. */
  datatype Holder = Holder(key: RequestKey, fingerprint: string, since: Time)

  datatype Event =
    | Asks(key: RequestKey, fingerprint: string)
    | Fulfils(holder: Holder, paymentId: Id)
    | Ends(holder: Holder)
    | Prunes
    | Waits

  /**
   The table, and what the processes of the instance know: who is at work, and who has made its
   payment but not yet ended.
   */
  datatype Desk = Desk(table: Table, working: set<Holder>, closing: set<Holder>, clock: Time)

  /** Time never goes back, and whoever works on a key ends before its lease does. */
  ghost predicate Steps(d: Desk, event: Event, e: Desk, lease: nat) {
    && d.clock <= e.clock
    && (forall h :: h in d.working + d.closing ==> e.clock < h.since + lease)
    && match event
       case Asks(key, fingerprint) =>
         && e.table == Claimed(d.table, key, fingerprint, lease, e.clock) && e.closing == d.closing
         && e.working == d.working
              + (if Answer(d.table, key, fingerprint, e.clock).Mine? then {Holder(key, fingerprint, e.clock)} else {})
       case Fulfils(h, paymentId) =>
         && h in d.working && e.table == Fulfilled(d.table, h.key, paymentId)
         && e.working == d.working - {h} && e.closing == d.closing + {h}
       case Ends(h) =>
         && h in d.working + d.closing && e.table == Released(d.table, h.key)
         && e.working == d.working - {h} && e.closing == d.closing - {h}
       case Prunes => e.table == d.table - Stale(d.table, e.clock) && e.working == d.working && e.closing == d.closing
       case Waits => e.table == d.table && e.working == d.working && e.closing == d.closing
  }

  ghost predicate Run(trace: seq<Desk>, events: seq<Event>, lease: nat) {
    && |trace| == |events| + 1
    && trace[0].table == map[] && trace[0].working == {} && trace[0].closing == {}
    && forall n :: 0 <= n < |events| ==> Steps(trace[n], events[n], trace[n + 1], lease)
  }

  ghost predicate Owns(d: Desk, h: Holder, lease: nat) {
    && h.key in d.table && d.table[h.key].fingerprint == h.fingerprint
    && d.table[h.key].claimedAt == h.since && d.table[h.key].leaseUntil == h.since + lease
  }

  /**
   Every live request owns the row of its key, alone; the row has a payment once the request has made
   it, and not before.
   */
  ghost predicate Exclusive(d: Desk, lease: nat) {
    && (forall h :: h in d.working + d.closing ==> Owns(d, h, lease) && h.since <= d.clock)
    && (forall h :: h in d.working ==> h.key in d.table && d.table[h.key].paymentId.None?)
    && (forall h :: h in d.closing ==> h.key in d.table && d.table[h.key].paymentId.Some?)
    && (forall g, h :: g in d.working + d.closing && h in d.working + d.closing && g.key == h.key ==> g == h)
  }

  lemma StepKeepsExclusive(d: Desk, event: Event, e: Desk, lease: nat)
    requires Exclusive(d, lease) && Steps(d, event, e, lease) && 0 < lease <= REQUEST_TTL_SECS
    ensures Exclusive(e, lease)
  {
  }

  lemma {:induction false} RunKeepsExclusive(trace: seq<Desk>, events: seq<Event>, lease: nat, n: nat)
    requires Run(trace, events, lease) && 0 < lease <= REQUEST_TTL_SECS && n < |trace|
    ensures Exclusive(trace[n], lease)
  {
    hide Steps, Exclusive;
    if n == 0 {
      NobodyIsExclusive(trace[0], lease);
    } else {
      RunKeepsExclusive(trace, events, lease, n - 1);
      StepKeepsExclusive(trace[n - 1], events[n - 1], trace[n], lease);
    }
  }

  lemma NobodyIsExclusive(d: Desk, lease: nat)
    requires d.working == {} && d.closing == {}
    ensures Exclusive(d, lease)
  {
  }

  /**
   No two requests are ever live on one key, and anyone else who asks meanwhile is not told the key
   is its own.
   */
  lemma OneHolderPerKey(trace: seq<Desk>, events: seq<Event>, lease: nat, n: nat, h: Holder)
    requires Run(trace, events, lease) && 0 < lease <= REQUEST_TTL_SECS && n < |trace|
    requires h in trace[n].working + trace[n].closing
    ensures forall g :: g in trace[n].working + trace[n].closing && g.key == h.key ==> g == h
    ensures forall fingerprint, now: Time :: now < h.since + lease ==>
      !Answer(trace[n].table, h.key, fingerprint, now).Mine?
  {
    hide Steps;
    RunKeepsExclusive(trace, events, lease, n);
    assert Owns(trace[n], h, lease);
  }

  /**
   What others hear meanwhile: that the key is in flight until the payment is made, and then the payment,
   but only if they ask the same; a different request on the key is a mismatch at once.
   */
  lemma LiveKeyAnswers(
    trace: seq<Desk>, events: seq<Event>, lease: nat, n: nat, h: Holder, fingerprint: string, now: Time)
    requires Run(trace, events, lease) && 0 < lease <= REQUEST_TTL_SECS && n < |trace|
    requires h in trace[n].working + trace[n].closing && now < h.since + lease
    ensures var answer := Answer(trace[n].table, h.key, fingerprint, now);
      if fingerprint != h.fingerprint then answer.Mismatch?
      else if h in trace[n].working then answer.InFlight?
      else answer.Done? && h.key in trace[n].table && trace[n].table[h.key].paymentId == Some(answer.paymentId)
  {
    hide Steps;
    RunKeepsExclusive(trace, events, lease, n);
    assert Owns(trace[n], h, lease);
  }

  /** A request that ends without a payment gives its key back: whoever asks next is told it is its own. */
  lemma EndingGivesBack(
    trace: seq<Desk>, events: seq<Event>, lease: nat, n: nat, h: Holder, fingerprint: string, now: Time)
    requires Run(trace, events, lease) && 0 < lease <= REQUEST_TTL_SECS && n < |events|
    requires events[n] == Ends(h) && h in trace[n].working
    ensures h.key !in trace[n + 1].table && Answer(trace[n + 1].table, h.key, fingerprint, now).Mine?
  {
    RunKeepsExclusive(trace, events, lease, n);
    assert Steps(trace[n], events[n], trace[n + 1], lease);
  }

  lemma StepKeepsFulfilled(d: Desk, event: Event, e: Desk, lease: nat, key: RequestKey)
    requires Exclusive(d, lease) && Steps(d, event, e, lease)
    requires key in d.table && d.table[key].paymentId.Some?
    requires event.Prunes? ==> e.clock < d.table[key].claimedAt + REQUEST_TTL_SECS
    ensures key in e.table && e.table[key] == d.table[key]
  {
  }

  /**
   A fulfilled key keeps its row through every claim, release and end, until a prune a day after
   the claim: it answers the same payment to the request it was made for, and a mismatch to any other.
   */
  lemma {:induction false} FulfilledAnswersTheSame(
    trace: seq<Desk>, events: seq<Event>, lease: nat, n: nat, later: nat, key: RequestKey)
    requires Run(trace, events, lease) && 0 < lease <= REQUEST_TTL_SECS && n <= later < |trace|
    requires key in trace[n].table && trace[n].table[key].paymentId.Some?
    requires forall i :: n <= i < later && events[i].Prunes? ==>
      trace[i + 1].clock < trace[n].table[key].claimedAt + REQUEST_TTL_SECS
    ensures key in trace[later].table && trace[later].table[key] == trace[n].table[key]
    ensures forall fingerprint, now: Time ::
      (Answer(trace[later].table, key, fingerprint, now)
        == if fingerprint == trace[n].table[key].fingerprint
           then Done(trace[n].table[key].paymentId.value) else Mismatch)
    decreases later
  {
    hide Steps, Exclusive;
    if n < later {
      FulfilledAnswersTheSame(trace, events, lease, n, later - 1, key);
      RunKeepsExclusive(trace, events, lease, later - 1);
      StepKeepsFulfilled(trace[later - 1], events[later - 1], trace[later], lease, key);
    }
  }

  /**
   Were a request to outlive its lease, a second one would be let in: the first condition of a run is
   needed.
   */
  lemma OverrunLetsAnotherIn(
    key: RequestKey, fingerprint: string, lease: nat, since: Time, other: string, now: Time)
    ensures Answer(Claimed(map[], key, fingerprint, lease, since), key, other, now)
      == if other != fingerprint then Mismatch else if now < since + lease then InFlight else Mine
  {
  }
}
