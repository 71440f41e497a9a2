/**
 One delivery tried until it lands or its time is up: each failure waits one backoff longer than
 the one before, up to a deadline fixed when the row was written.
 */
module Retries {
  import opened Options
  import opened Facts
  import opened LedgerState
  import opened Replication

  /** What happens to an outbox row while its webhook does not answer. */
  datatype Event = Leased(now: Time) | Failed(now: Time) | Idles

  /** `leasedAt` is when the attempt under way was first leased; no column holds it. */
  datatype Row = Row(tries: Tries, leasedAt: Option<Time>)

  /** A row is leased only when due; a failure ends an attempt that was leased earlier. */
  ghost predicate Steps(r: Row, event: Event, t: Row, backoff: nat, lease: nat) {
    match event
    case Leased(now) =>
      && r.tries.dueAt.Some? && r.tries.dueAt.value <= now
      && t == Row(r.tries.(dueAt := Some(now + lease)), if r.leasedAt.Some? then r.leasedAt else Some(now))
    case Failed(now) =>
      && r.leasedAt.Some? && r.leasedAt.value <= now
      && t == Row(FailedOnce(r.tries, backoff, now), None)
    case Idles => t == r
  }

  ghost predicate Run(trace: seq<Row>, events: seq<Event>, backoff: nat, lease: nat) {
    && |trace| == |events| + 1
    && trace[0].tries.attempts == 0 && trace[0].tries.dueAt.Some? && trace[0].tries.parkedAt.None?
    && forall n :: 0 <= n < |events| ==> Steps(trace[n], events[n], trace[n + 1], backoff, lease)
  }

  /** When the first failure of a run was. */
  ghost function FirstFailure(events: seq<Event>): Option<Time> {
    if events == [] then None
    else if FirstFailure(events[..|events| - 1]).Some? then FirstFailure(events[..|events| - 1])
    else if events[|events| - 1].Failed? then Some(events[|events| - 1].now)
    else None
  }

  ghost function Triangle(k: nat): nat {
    if k == 0 then 0 else Triangle(k - 1) + k
  }

  lemma {:induction false} TriangleIsHalfSquare(k: nat)
    ensures 2 * Triangle(k) == k * (k + 1)
  {
    if k > 0 { TriangleIsHalfSquare(k - 1); }
  }

  /**
   After k failures, the next attempt lies at least k triangular backoffs after the first, and, while
   one is due at all, so does the deadline.
   */
  ghost predicate Spaced(r: Row, first: Option<Time>, backoff: nat) {
    var k := r.tries.attempts;
    && (first.None? <==> k == 0)
    && (r.tries.dueAt.None? ==> r.leasedAt.None? && r.tries.parkedAt.Some?)
    && (first.Some? && r.tries.dueAt.Some? ==>
      && first.value + backoff * Triangle(k) <= r.tries.retryUntil
      && first.value + backoff * Triangle(k) <= r.leasedAt.Or(r.tries.dueAt.value))
  }

  lemma Widens(backoff: nat, k: nat)
    requires k > 0
    ensures backoff * Triangle(k) == backoff * Triangle(k - 1) + backoff * k
  {
  }

  lemma StepKeepsSpaced(r: Row, event: Event, t: Row, first: Option<Time>, backoff: nat, lease: nat)
    requires Spaced(r, first, backoff) && Steps(r, event, t, backoff, lease)
    ensures Spaced(t, if first.None? && event.Failed? then Some(event.now) else first, backoff)
    ensures t.tries.retryUntil == r.tries.retryUntil
    ensures event.Failed? && t.tries.dueAt.Some? ==> t.tries.dueAt.value <= t.tries.retryUntil
  {
    if event.Failed? { Widens(backoff, t.tries.attempts); }
  }

  lemma {:induction false} RunKeepsSpaced(trace: seq<Row>, events: seq<Event>, backoff: nat, lease: nat, n: nat)
    requires Run(trace, events, backoff, lease) && n < |trace|
    ensures Spaced(trace[n], FirstFailure(events[..n]), backoff)
    ensures trace[n].tries.retryUntil == trace[0].tries.retryUntil
  {
    hide Steps, Spaced;
    if n == 0 {
      NothingFailedYet(trace[0], backoff);
    } else {
      RunKeepsSpaced(trace, events, backoff, lease, n - 1);
      StepKeepsSpaced(trace[n - 1], events[n - 1], trace[n], FirstFailure(events[..n - 1]), backoff, lease);
      assert events[..n][..n - 1] == events[..n - 1];
    }
  }

  lemma NothingFailedYet(r: Row, backoff: nat)
    requires r.tries.attempts == 0 && r.tries.dueAt.Some?
    ensures Spaced(r, None, backoff)
  {
  }

  /**
   The theorem: a delivery still scheduled after k failures had room for all the backoffs between
   the first of them and the deadline it was written with, so the number of tries is bounded.
   */
  lemma RetriesAreBounded(trace: seq<Row>, events: seq<Event>, backoff: nat, lease: nat, n: nat)
    requires Run(trace, events, backoff, lease) && n < |trace|
    requires trace[n].tries.dueAt.Some? && trace[n].tries.attempts > 0
    ensures var k := trace[n].tries.attempts; var first := FirstFailure(events[..n]);
      first.Some? && backoff * (k * (k + 1)) <= 2 * (trace[0].tries.retryUntil - first.value)
  {
    RunKeepsSpaced(trace, events, backoff, lease, n);
    Doubled(backoff, trace[n].tries.attempts);
  }

  lemma Doubled(backoff: nat, k: nat)
    ensures 2 * (backoff * Triangle(k)) == backoff * (k * (k + 1))
  {
    TriangleIsHalfSquare(k);
    assert 2 * (backoff * Triangle(k)) == backoff * (2 * Triangle(k));
  }

  /** With a backoff of a second or more, k failures without being parked take k of the seconds there are. */
  lemma TriesFitTheDeadline(trace: seq<Row>, events: seq<Event>, backoff: nat, lease: nat, n: nat)
    requires Run(trace, events, backoff, lease) && n < |trace| && backoff >= 1
    requires trace[n].tries.dueAt.Some? && trace[n].tries.attempts > 0
    ensures FirstFailure(events[..n]).Some?
    ensures trace[n].tries.attempts <= trace[0].tries.retryUntil - FirstFailure(events[..n]).value
  {
    hide Run, FirstFailure;
    RetriesAreBounded(trace, events, backoff, lease, n);
    AtLeastTwice(backoff, trace[n].tries.attempts);
  }

  ghost function Failures(events: seq<Event>): nat {
    if events == [] then 0
    else Failures(events[..|events| - 1]) + if events[|events| - 1].Failed? then 1 else 0
  }

  /** How long there was from the first failure to the deadline; nothing, if the first came after it. */
  ghost function TimeLeft(first: Option<Time>, until: Time): nat {
    if first.Some? && first.value <= until then until - first.value else 0
  }

  /**
   With a backoff of a second or more a delivery fails at most once for each second there was between
   its first failure and its deadline, and once more; and after more failures than there were seconds
   it is parked.
   */
  lemma {:induction false} FailuresAreFew(trace: seq<Row>, events: seq<Event>, backoff: nat, lease: nat, n: nat)
    requires Run(trace, events, backoff, lease) && n < |trace| && backoff >= 1
    ensures Failures(events[..n]) == trace[n].tries.attempts
    ensures var left := TimeLeft(FirstFailure(events[..n]), trace[0].tries.retryUntil);
      && Failures(events[..n]) <= left + 1
      && (Failures(events[..n]) > left ==> trace[n].tries.dueAt.None? && trace[n].tries.parkedAt.Some?)
  {
    RunKeepsSpaced(trace, events, backoff, lease, n);
    if n > 0 {
      FailuresAreFew(trace, events, backoff, lease, n - 1);
      RunKeepsSpaced(trace, events, backoff, lease, n - 1);
      assert events[..n][..n - 1] == events[..n - 1];
      assert Steps(trace[n - 1], events[n - 1], trace[n], backoff, lease);
      if trace[n].tries.dueAt.Some? && trace[n].tries.attempts > 0 {
        TriesFitTheDeadline(trace, events, backoff, lease, n);
      }
    }
  }

  /** When the last failure of a run was. */
  ghost function LastFailure(events: seq<Event>): Option<Time> {
    if events == [] then None
    else if events[|events| - 1].Failed? then Some(events[|events| - 1].now)
    else LastFailure(events[..|events| - 1])
  }

  /**
   A failure parks its row if and only if one more backoff than the row has failed before no longer
   fits the deadline; if it fits, the row is due exactly then.
   */
  lemma FailureParksOrReschedules(r: Row, now: Time, t: Row, backoff: nat, lease: nat)
    requires Steps(r, Failed(now), t, backoff, lease)
    ensures var k := r.tries.attempts + 1;
      && t.tries.attempts == k && t.tries.retryUntil == r.tries.retryUntil && t.leasedAt.None?
      && (if now + backoff * k > r.tries.retryUntil
          then t.tries.dueAt.None? && t.tries.parkedAt == Some(now)
          else t.tries.dueAt == Some(now + backoff * k) && t.tries.parkedAt.None?)
  {
  }

  /**
   A delivery is given up exactly when the backoff after its last failure, as many times over as it has
   failed, would pass the deadline: in every run, at every moment, no row is parked that still had
   time for its next try, and none that had not is tried again.
   */
  lemma {:induction false} ParkedExactlyPastTheDeadline(
    trace: seq<Row>, events: seq<Event>, backoff: nat, lease: nat, n: nat)
    requires Run(trace, events, backoff, lease) && n < |trace|
    ensures var row, last, k := trace[n].tries, LastFailure(events[..n]), Failures(events[..n]);
      && row.attempts == k && row.retryUntil == trace[0].tries.retryUntil
      && (row.dueAt.None? <==> last.Some? && last.value + backoff * k > row.retryUntil)
      && row.parkedAt == (if row.dueAt.None? then last else None)
  {
    if n > 0 {
      ParkedExactlyPastTheDeadline(trace, events, backoff, lease, n - 1);
      assert events[..n][..n - 1] == events[..n - 1];
      assert Steps(trace[n - 1], events[n - 1], trace[n], backoff, lease);
    }
  }

  lemma AtLeastTwice(backoff: nat, k: nat)
    requires backoff >= 1 && k >= 1
    ensures backoff * (k * (k + 1)) >= 2 * k
  {
    assert k * (k + 1) >= k * 2;
    assert (backoff - 1) * (k * (k + 1)) >= 0;
  }

  /**
   Once parked, a delivery stays parked: it is never leased again, and one more failure at any later
   time parks it again.
   */
  lemma ParkedStaysParked(tries: Tries, backoff: nat, now: Time, later: Time)
    requires now <= later && FailedOnce(tries, backoff, now).dueAt.None?
    ensures FailedOnce(tries, backoff, now).parkedAt == Some(now)
    ensures FailedOnce(FailedOnce(tries, backoff, now), backoff, later).dueAt.None?
    ensures forall event, t, lease, leasedAt ::
      Steps(Row(FailedOnce(tries, backoff, now), leasedAt), event, t, backoff, lease) ==> !event.Leased?
  {
    assert backoff * (tries.attempts + 2) == backoff * (tries.attempts + 1) + backoff;
  }

  // ---------------------------------------------------------------- the deadline

  /** The deadline is the floor or the latest expiry known when the row is written, whichever is later. */
  lemma DeadlineAtInsertion(s: State, fact: Fact, dueAt: Time, now: Time)
    requires fact.OutboxFact? && fact.Name() !in s.rows
    ensures var tries := Recorded(s, fact, dueAt, now).tries;
      && fact.Name() in tries && tries[fact.Name()].attempts == 0
      && fact.owedAt + RETRY_FLOOR_SECS <= tries[fact.Name()].retryUntil
      && (forall k :: k in s.rows && s.rows[k].AcceptedFact? && s.rows[k].id == fact.id ==>
           s.rows[k].expiresAt <= tries[fact.Name()].retryUntil)
      && (tries[fact.Name()].retryUntil == fact.owedAt + RETRY_FLOOR_SECS
          || exists k :: k in s.rows && s.rows[k].AcceptedFact? && s.rows[k].id == fact.id
               && s.rows[k].expiresAt == tries[fact.Name()].retryUntil)
  {
    var expiries := set k | k in s.rows && s.rows[k].AcceptedFact? && s.rows[k].id == fact.id :: s.rows[k].expiresAt;
    forall k | k in s.rows && s.rows[k].AcceptedFact? && s.rows[k].id == fact.id
      ensures s.rows[k].expiresAt in expiries
    {
    }
    assert RetryUntil(s, fact.id, fact.owedAt) == MaxOf({fact.owedAt + RETRY_FLOOR_SECS} + expiries);
    assert fact.owedAt + RETRY_FLOOR_SECS in {fact.owedAt + RETRY_FLOOR_SECS} + expiries;
  }

  /** Rows that stay keep their tries, deadline and all. */
  ghost predicate KeepsTries(s: State, t: State) {
    forall k :: k in s.tries && k in t.tries ==> t.tries[k] == s.tries[k]
  }

  ghost predicate LosesNoTries(s: State, t: State) {
    forall k :: k in s.tries ==> k in t.tries && t.tries[k] == s.tries[k]
  }

  lemma RecordedLosesNoTries(s: State, fact: Fact, dueAt: Time, now: Time)
    requires Filed(s)
    ensures LosesNoTries(s, Recorded(s, fact, dueAt, now))
  {
  }

  lemma {:induction false} OwedEveryLosesNoTries(s: State, order: seq<Missing>, now: Time)
    requires Sound(s)
    ensures LosesNoTries(s, OwedEvery(s, order, now))
    decreases |order|
  {
    hide Recorded, Settlement, Sound, Issues, NextNumber;
    if order != [] {
      var settled := Settlement(s, order[0].id);
      if settled.Some? {
        var fact := OutboxFact(
          s.self, NextNumber(s, Outbox), order[0].id, order[0].url, Body(settled.value, order[0].settledAt), now);
        RecordedStaysSound(s, fact, 0, now);
        SoundFiles(s);
        RecordedLosesNoTries(s, fact, 0, now);
      }
      OwedEveryLosesNoTries(OwedMissing(s, order[0], now), order[1..], now);
    }
  }

  lemma SoundFiles(s: State)
    requires Sound(s)
    ensures Filed(s)
  {
  }

  lemma PrunedKeepsTries(s: State, grace: nat, now: Time)
    ensures KeepsTries(s, Pruned(s, grace, now))
    ensures Pruned(s, grace, now).tries.Keys <= s.tries.Keys
  {
    hide Outlived;
  }

  /**
   A sweep drops deliveries but changes no deadline, even when it drops the accepted row the deadline
   came from.
   */
  lemma SweepKeepsDeadlines(s: State, grace: nat, order: seq<Missing>, now: Time, key: Key)
    requires Sound(s) && key in s.tries && key in Pruned(s, grace, now).tries
    ensures key in Swept(s, grace, order, now).tries
    ensures Swept(s, grace, order, now).tries[key] == s.tries[key]
  {
    hide Pruned, OwedEvery, Sound;
    PrunedPrunes(s, grace, now);
    PrunedKeepsTries(s, grace, now);
    OwedEveryLosesNoTries(Pruned(s, grace, now), order, now);
  }

  lemma {:induction false} LearnedAllLosesNoTries(
    rules: Rules, s: State, facts: seq<Fact>, standby: Fact -> Time, now: Time)
    requires Filed(s)
    ensures LosesNoTries(s, LearnedAll(rules, s, facts, standby, now))
    decreases |facts|
  {
    hide Recorded, Filed, Proven, Learned;
    if facts != [] {
      LearnedLosesNoTries(rules, s, facts[0], standby, now);
      LearnedStep(rules, s, facts[0], standby, now);
      LearnedAllLosesNoTries(rules, Learned(rules, s, facts[0], standby, now), facts[1..], standby, now);
    }
  }

  lemma LearnedLosesNoTries(rules: Rules, s: State, fact: Fact, standby: Fact -> Time, now: Time)
    requires Filed(s)
    ensures LosesNoTries(s, Learned(rules, s, fact, standby, now))
  {
    hide Recorded, Filed, Proven, State.Known, State.Settled;
    RecordedLosesNoTries(s, fact, rules.takeoverAt(fact), now);
  }

  /** Nor does anything a peer says. */
  lemma AbsorbingKeepsDeadlines(
    rules: Rules, s: State, facts: seq<Fact>, through: Option<Watermarks>, standby: Fact -> Time, now: Time)
    requires Filed(s)
    ensures LosesNoTries(s, Absorbed(rules, s, facts, through, standby, now))
  {
    hide LearnedAll, Filed;
    LearnedAllLosesNoTries(rules, s, InOrder(facts), standby, now);
  }
}
