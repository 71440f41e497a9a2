/**
 No webhook of a settled payment is owed by nobody once a sweep has passed, and an instance on its
 own never lets one be.
 */
module Webhooks {
  import opened Options
  import opened Facts
  import opened LedgerState
  import opened Replication
  import opened Worklist
  import opened OrderFree

  // ---------------------------------------------------------------- what owing adds

  /** `t` holds the rows of `s` and, besides, outbox rows of this instance's own. */
  ghost predicate OwesMore(s: State, t: State, now: Time) {
    && t.heard == s.heard && t.schedule == s.schedule
    && (forall k :: k in s.rows ==> k in t.rows && t.rows[k] == s.rows[k])
    && (forall k :: k in t.rows && k !in s.rows ==>
      t.rows[k].OutboxFact? && t.rows[k].origin == s.self && t.rows[k].owedAt == now)
    && t.self == s.self
  }

  lemma OwedOwes(s: State, id: Id, url: Url, body: Body, now: Time)
    requires Sound(s)
    ensures OwesMore(s, Owed(s, id, url, body, now), now) && Owed(s, id, url, body, now).HasRow(Outbox, id, url)
  {
    hide Sound, Issues, NextNumber;
    var fact := OutboxFact(s.self, NextNumber(s, Outbox), id, url, body, now);
    RecordedStaysSound(s, fact, 0, now);
    var t := Owed(s, id, url, body, now);
    assert t.rows[fact.Name()] == fact;
  }

  lemma HasRowStays(s: State, t: State, table: Source, id: Id, url: Url, now: Time)
    requires (table.Outbox? || table.Delivered?) && OwesMore(s, t, now) && s.HasRow(table, id, url)
    ensures t.HasRow(table, id, url)
  {
    var k :| k in s.rows && s.rows[k].Table() == table && s.rows[k].id == id && s.rows[k].url == url;
    assert k in t.rows && t.rows[k] == s.rows[k];
  }

  lemma SettledStays(s: State, t: State, id: Id, now: Time)
    requires OwesMore(s, t, now) && s.Settled(id)
    ensures t.Settled(id)
  {
    var k :| k in s.rows && s.rows[k].PaidFact? && s.rows[k].id == id;
    assert k in t.rows && t.rows[k] == s.rows[k];
  }

  lemma SettledHasSettlement(s: State, id: Id)
    requires s.Settled(id)
    ensures Settlement(s, id).Some?
  {
    var keys := set k | k in s.rows && s.rows[k].PaidFact? && s.rows[k].id == id;
    var k :| k in s.rows && s.rows[k].PaidFact? && s.rows[k].id == id;
    assert k in Sorted(keys);
  }

  lemma {:induction false} OwedEveryOwes(s: State, order: seq<Missing>, now: Time)
    requires Sound(s) && forall m :: m in order ==> s.Settled(m.id)
    ensures OwesMore(s, OwedEvery(s, order, now), now)
    ensures forall m :: m in order ==> OwedEvery(s, order, now).HasRow(Outbox, m.id, m.url)
    decreases |order|
  {
    hide Sound, Issues, Owed, Settlement, OwesMore, State.HasRow, State.Settled;
    if order == [] {
      OwesNothing(s, now);
    } else {
      var m := order[0];
      SettledHasSettlement(s, m.id);
      var body := Body(Settlement(s, m.id).value, m.settledAt);
      var t, u := Owed(s, m.id, m.url, body, now), OwedEvery(s, order, now);
      OwedOwes(s, m.id, m.url, body, now);
      OwedIssues(s, m.id, m.url, body, now);
      forall other | other in order[1..] ensures t.Settled(other.id) { SettledStays(s, t, other.id, now); }
      OwedEveryOwes(t, order[1..], now);
      OwesMoreTransitive(s, t, u, now);
      HasRowStays(t, u, Outbox, m.id, m.url, now);
      assert order == [m] + order[1..];
    }
  }

  lemma OwesNothing(s: State, now: Time)
    ensures OwesMore(s, s, now)
  {
  }

  lemma OwesMoreTransitive(s: State, t: State, u: State, now: Time)
    requires OwesMore(s, t, now) && OwesMore(t, u, now)
    ensures OwesMore(s, u, now)
  {
  }

  // ---------------------------------------------------------------- after a sweep

  /**
   After a sweep, every webhook an accepted row lists for a payment whose settlement was heard a
   minute ago or more has an outbox row or a tombstone; and the sweep wrote nothing else.
   */
  lemma SweepOwesEveryWebhook(s: State, grace: nat, order: seq<Missing>, now: Time)
    requires Sound(s) && Lists(order, Unowed(Pruned(s, grace, now), now))
    ensures Unowed(Swept(s, grace, order, now), now) == {}
    ensures EveryListedAnswered(Swept(s, grace, order, now), now - UNOWED_SLACK_SECS)
    ensures OwesMore(Pruned(s, grace, now), Swept(s, grace, order, now), now)
  {
    hide Pruned, OwesMore, OwedEvery, Sound, Unowed;
    var p, t := Pruned(s, grace, now), Swept(s, grace, order, now);
    PrunedPrunes(s, grace, now);
    forall m | m in order ensures p.Settled(m.id) { UnownedIsSettled(p, now, m); }
    OwedEveryOwes(p, order, now);
    if m :| m in Unowed(t, now) {
      StillUnowed(p, t, now, m);
    }
    NoneUnowed(t, now);
  }

  /** An accepted row lists a webhook for a payment whose settlement was heard by some time. */
  ghost predicate Listed(s: State, a: Key, p: Key, url: Url, heardBy: int) {
    && a in s.rows && s.rows[a].AcceptedFact? && url in s.rows[a].payment.webhooks
    && p in s.rows && s.rows[p].PaidFact? && s.rows[p].id == s.rows[a].id
    && p in s.heard && s.heard[p] <= heardBy
  }

  /** Somebody owes it, or it has landed. */
  ghost predicate Answered(s: State, a: Key, url: Url) {
    a in s.rows && (s.HasRow(Outbox, s.rows[a].id, url) || s.HasRow(Delivered, s.rows[a].id, url))
  }

  ghost predicate EveryListedAnswered(s: State, heardBy: int) {
    forall a, p, url :: Listed(s, a, p, url, heardBy) ==> Answered(s, a, url)
  }

  lemma ListedIsUnowed(s: State, a: Key, p: Key, url: Url, now: Time)
    requires Listed(s, a, p, url, now - UNOWED_SLACK_SECS) && !Answered(s, a, url)
    ensures Unowed(s, now) != {}
  {
    hide State.HasRow;
    assert Missing(s.rows[a].id, url, s.rows[p].settledAt) in Unowed(s, now);
  }

  lemma NoneUnowed(s: State, now: Time)
    requires Unowed(s, now) == {}
    ensures EveryListedAnswered(s, now - UNOWED_SLACK_SECS)
  {
    hide Unowed, Listed, Answered;
    var heardBy := now - UNOWED_SLACK_SECS;
    forall a, p, url | Listed(s, a, p, url, heardBy) ensures Answered(s, a, url) {
      if !Answered(s, a, url) { ListedIsUnowed(s, a, p, url, now); }
    }
  }

  lemma UnownedIsSettled(s: State, now: Time, m: Missing)
    requires m in Unowed(s, now)
    ensures s.Settled(m.id)
  {
  }

  /** What is unowed after the sweep was unowed before it, and so was listed. */
  lemma StillUnowed(p: State, t: State, now: Time, m: Missing)
    requires OwesMore(p, t, now) && m in Unowed(t, now)
    ensures m in Unowed(p, now) && !t.HasRow(Outbox, m.id, m.url)
  {
    var a, q :| a in t.rows && t.rows[a].AcceptedFact? && m.url in t.rows[a].payment.webhooks
      && q in t.rows && t.rows[q].PaidFact? && t.rows[q].id == t.rows[a].id
      && (if q in t.heard then t.heard[q] else t.rows[q].settledAt) <= now - UNOWED_SLACK_SECS
      && !t.HasRow(Outbox, t.rows[a].id, m.url) && !t.HasRow(Delivered, t.rows[a].id, m.url)
      && m == Missing(t.rows[a].id, m.url, t.rows[q].settledAt);
    assert a in p.rows && q in p.rows && p.rows[a] == t.rows[a] && p.rows[q] == t.rows[q];
    if p.HasRow(Outbox, m.id, m.url) { HasRowStays(p, t, Outbox, m.id, m.url, now); }
    if p.HasRow(Delivered, m.id, m.url) { HasRowStays(p, t, Delivered, m.id, m.url, now); }
  }

  // ---------------------------------------------------------------- an instance on its own

  /** The steps of an instance without peers. */
  datatype Step =
    | Insert(payment: Payment, dueAt: Time)
    | Pay(id: Id, opens: bool)
    | Deliver(id: Id, url: Url)
    | Fail(key: Key, backoff: nat)
    | Sweep(grace: nat, order: seq<Missing>)
    | Lease

  /** Leases and polls change when rows are next due, and revive no parked delivery. */
  ghost predicate Leases(s: State, t: State) {
    && t.self == s.self && t.rows == s.rows && t.marks == s.marks && t.heard == s.heard
    && t.tries.Keys == s.tries.Keys
    && (forall k :: k in s.tries ==> t.tries[k] == s.tries[k].(dueAt := t.tries[k].dueAt))
  }

  ghost predicate Takes(s: State, t: State, step: Step, now: Time) {
    match step
    case Insert(payment, dueAt) => t == Inserted(s, payment, dueAt, now)
    case Pay(id, opens) => t == Settling(s, id, opens, now)
    case Deliver(id, url) => t == Landed(s, id, url, now)
    case Fail(key, backoff) => t == Undelivered(s, key, backoff, now)
    case Sweep(grace, order) => Lists(order, Unowed(Pruned(s, grace, now), now)) && t == Swept(s, grace, order, now)
    case Lease => Leases(s, t)
  }

  ghost predicate Alone(trace: seq<State>, steps: seq<Step>, clock: seq<Time>) {
    && |trace| == |clock| == |steps| + 1
    && (exists self :: trace[0] == Empty(self))
    && (forall n :: 0 <= n < |steps| ==>
      clock[n] <= clock[n + 1] && Takes(trace[n], trace[n + 1], steps[n], clock[n + 1]))
  }

  /** An outbox row for this webhook, written no earlier than the settlement. */
  ghost predicate OwedSince(s: State, id: Id, url: Url, settledAt: Time) {
    exists o :: o in s.rows && s.rows[o].OutboxFact?
      && s.rows[o].id == id && s.rows[o].url == url && settledAt <= s.rows[o].owedAt
  }

  ghost predicate EveryHookOwed(s: State) {
    forall a, p, url ::
      && a in s.rows && s.rows[a].AcceptedFact? && p in s.rows && s.rows[p].PaidFact?
      && s.rows[a].id == s.rows[p].id && url in s.rows[a].payment.webhooks
      ==> OwedSince(s, s.rows[a].id, url, s.rows[p].settledAt)
  }

  /** No outbox row is from the future, and none was parked before it was owed. */
  ghost predicate Timely(s: State, clock: Time) {
    forall o :: o in s.rows && s.rows[o].OutboxFact? ==>
      && s.rows[o].owedAt <= clock
      && (o in s.tries && s.tries[o].parkedAt.Some? ==> s.rows[o].owedAt <= s.tries[o].parkedAt.value)
  }

  /** Retention drops an accepted row no later than the outbox rows that pay for its webhooks. */
  lemma PrunedKeepsHooksOwed(s: State, grace: nat, now: Time)
    requires EveryHookOwed(s) && Timely(s, now)
    ensures EveryHookOwed(Pruned(s, grace, now)) && Timely(Pruned(s, grace, now), now)
  {
    var t, cut := Pruned(s, grace, now), now - grace;
    forall a, p, url |
      && a in t.rows && t.rows[a].AcceptedFact? && p in t.rows && t.rows[p].PaidFact?
      && t.rows[a].id == t.rows[p].id && url in t.rows[a].payment.webhooks
      ensures OwedSince(t, t.rows[a].id, url, t.rows[p].settledAt)
    {
      assert OwedSince(s, s.rows[a].id, url, s.rows[p].settledAt);
      var o :| o in s.rows && s.rows[o].OutboxFact? && s.rows[o].id == s.rows[a].id && s.rows[o].url == url
        && s.rows[p].settledAt <= s.rows[o].owedAt;
      assert !SettledBy(s.rows, s.rows[a].id, cut);
      assert cut < s.rows[p].settledAt;
      assert !Outlived(s, o, cut);
      assert o in t.rows && t.rows[o] == s.rows[o];
    }
  }

  lemma HookOwedIsNotUnowed(s: State, now: Time)
    requires EveryHookOwed(s)
    ensures Unowed(s, now) == {}
  {
    forall id, url, settledAt | OwedSince(s, id, url, settledAt) ensures s.HasRow(Outbox, id, url) {
      var o :| o in s.rows && s.rows[o].OutboxFact? && s.rows[o].id == id && s.rows[o].url == url;
      assert s.rows[o].Table() == Outbox;
    }
  }

  // ---------------------------------------------------------------- adding rows

  /** Rows and their tries stay as they are; new outbox rows are owed now and not parked. */
  ghost predicate Adds(s: State, t: State, now: Time) {
    && (forall k :: k in s.rows ==> k in t.rows && t.rows[k] == s.rows[k])
    && (forall k :: k in t.rows && k !in s.rows && t.rows[k].OutboxFact? ==> t.rows[k].owedAt == now)
    && (forall o :: o in s.tries ==> o in t.tries && t.tries[o] == s.tries[o])
    && (forall o :: o in t.tries && o !in s.tries ==> t.tries[o].parkedAt.None?)
  }

  lemma AddsTransitive(s: State, t: State, u: State, now: Time)
    requires Adds(s, t, now) && Adds(t, u, now)
    ensures Adds(s, u, now)
  {
  }

  lemma AddsKeepsTimely(s: State, t: State, now: Time)
    requires Filed(s) && Timely(s, now) && Adds(s, t, now)
    ensures Timely(t, now)
  {
  }

  lemma RecordedAdds(s: State, fact: Fact, dueAt: Time, now: Time)
    requires fact.Name() !in s.rows && Filed(s) && (fact.OutboxFact? ==> fact.owedAt == now)
    ensures Adds(s, Recorded(s, fact, dueAt, now), now)
  {
    RecordedFiles(s, fact, dueAt, now);
  }

  lemma OwedAdds(s: State, id: Id, url: Url, body: Body, now: Time)
    requires Sound(s)
    ensures Adds(s, Owed(s, id, url, body, now), now) && OwedSince(Owed(s, id, url, body, now), id, url, now)
  {
    hide Issues, NextNumber, Recorded, Closed, OwnBelowMark, Adds;
    var fact := OutboxFact(s.self, NextNumber(s, Outbox), id, url, body, now);
    RecordedStaysSound(s, fact, 0, now);
    RecordedAdds(s, fact, 0, now);
    var t := Owed(s, id, url, body, now);
    assert t.rows[fact.Name()] == fact;
  }

  lemma OwedSinceStays(s: State, t: State, id: Id, url: Url, settledAt: Time, now: Time)
    requires OwedSince(s, id, url, settledAt) && Adds(s, t, now)
    ensures OwedSince(t, id, url, settledAt)
  {
    var o :| o in s.rows && s.rows[o].OutboxFact?
      && s.rows[o].id == id && s.rows[o].url == url && settledAt <= s.rows[o].owedAt;
    assert o in t.rows && t.rows[o] == s.rows[o];
  }

  lemma {:induction false} OwedAllAdds(s: State, id: Id, urls: seq<Url>, body: Body, now: Time)
    requires Sound(s)
    ensures Adds(s, OwedAll(s, id, urls, body, now), now) && OwesMore(s, OwedAll(s, id, urls, body, now), now)
    ensures forall url :: url in urls ==> OwedSince(OwedAll(s, id, urls, body, now), id, url, now)
    decreases |urls|
  {
    hide Sound, Issues, Owed, Adds, OwesMore, OwedSince;
    if urls == [] {
      OwesNothing(s, now);
      AddsNothing(s, now);
    } else {
      var t, u := Owed(s, id, urls[0], body, now), OwedAll(s, id, urls, body, now);
      OwedIssues(s, id, urls[0], body, now);
      OwedAdds(s, id, urls[0], body, now);
      OwedOwes(s, id, urls[0], body, now);
      OwedAllAdds(t, id, urls[1..], body, now);
      AddsTransitive(s, t, u, now);
      OwesMoreTransitive(s, t, u, now);
      OwedSinceStays(t, u, id, urls[0], now, now);
      assert urls == [urls[0]] + urls[1..];
    }
  }

  lemma AddsNothing(s: State, now: Time)
    ensures Adds(s, s, now)
  {
  }

  /**
   A row that settles nothing, and that accepts nothing already settled, brings no webhook that is
   not owed.
   */
  lemma AddedKeepsHooks(s: State, t: State, fact: Fact, now: Time)
    requires EveryHookOwed(s) && Adds(s, t, now)
    requires fact.Name() !in s.rows && t.rows == s.rows[fact.Name() := fact]
    requires !fact.PaidFact? && (fact.AcceptedFact? ==> !s.Settled(fact.id))
    ensures EveryHookOwed(t)
  {
    hide OwedSince;
    forall a, p, url |
      && a in t.rows && t.rows[a].AcceptedFact? && p in t.rows && t.rows[p].PaidFact?
      && t.rows[a].id == t.rows[p].id && url in t.rows[a].payment.webhooks
      ensures OwedSince(t, t.rows[a].id, url, t.rows[p].settledAt)
    {
      assert p in s.rows && t.rows[p] == s.rows[p];
      assert a in s.rows && t.rows[a] == s.rows[a];
      OwedSinceStays(s, t, t.rows[a].id, url, t.rows[p].settledAt, now);
    }
  }

  /** Settling a payment owes every webhook its accepted rows carry. */
  lemma OpenedOwesHooks(s: State, watched: Payment, now: Time)
    requires Sound(s) && EveryHookOwed(s) && !s.Settled(watched.id) && Read(s, watched.id) == Some(watched)
    ensures EveryHookOwed(Opened(s, watched, now)) && Adds(s, Opened(s, watched, now), now)
  {
    hide Issues, NextNumber, Recorded, Closed, OwnBelowMark, Adds, OwesMore, OwedSince, EveryHookOwed, OwedAll, Read;
    var record := watched.(webhooks := []);
    var fact := PaidFact(s.self, NextNumber(s, Paid), watched.id, record, now);
    var r, body := Recorded(s, fact, 0, now), Body(record, now);
    RecordedStaysSound(s, fact, 0, now);
    RecordedAdds(s, fact, 0, now);
    OwedAllAdds(r, watched.id, watched.webhooks, body, now);
    var u := OwedAll(r, watched.id, watched.webhooks, body, now);
    AddsTransitive(s, r, u, now);
    ReadCarriesEveryWebhook(s, watched.id);
    PaidOwesHooks(s, r, u, fact, watched, now);
    ForgettingKeepsHooks(s, u, watched.id, now);
  }

  lemma ForgettingKeepsHooks(s: State, u: State, id: Id, now: Time)
    requires EveryHookOwed(u) && Adds(s, u, now)
    ensures EveryHookOwed(Forgotten(u, id)) && Adds(s, Forgotten(u, id), now)
  {
    var t := Forgotten(u, id);
    assert forall i, url, settledAt :: OwedSince(u, i, url, settledAt) ==> OwedSince(t, i, url, settledAt);
  }

  lemma PaidOwesHooks(s: State, r: State, u: State, fact: Fact, watched: Payment, now: Time)
    requires EveryHookOwed(s) && Adds(s, u, now) && OwesMore(r, u, now)
    requires fact.Name() !in s.rows && r.rows == s.rows[fact.Name() := fact]
    requires fact.PaidFact? && fact.id == watched.id && fact.settledAt == now && !s.Settled(watched.id)
    requires forall url :: Hooked(s, watched.id, url) ==> url in watched.webhooks
    requires forall url :: url in watched.webhooks ==> OwedSince(u, watched.id, url, now)
    ensures EveryHookOwed(u)
  {
    hide OwedSince;
    forall a, p, url |
      && a in u.rows && u.rows[a].AcceptedFact? && p in u.rows && u.rows[p].PaidFact?
      && u.rows[a].id == u.rows[p].id && url in u.rows[a].payment.webhooks
      ensures OwedSince(u, u.rows[a].id, url, u.rows[p].settledAt)
    {
      assert a in r.rows && p in r.rows && u.rows[a] == r.rows[a] && u.rows[p] == r.rows[p];
      assert a in s.rows && s.rows[a] == u.rows[a];
      if p == fact.Name() {
        assert Hooked(s, watched.id, url);
      } else {
        assert p in s.rows && s.rows[p] == u.rows[p];
        OwedSinceStays(s, u, u.rows[a].id, url, u.rows[p].settledAt, now);
      }
    }
  }

  // ---------------------------------------------------------------- every step of an instance on its own

  lemma TakenKeepsHooks(s: State, payment: Payment, dueAt: Time, now: Time)
    requires Sound(s) && EveryHookOwed(s) && !s.Settled(payment.id)
    ensures EveryHookOwed(Taken(s, payment, dueAt, now)) && Adds(s, Taken(s, payment, dueAt, now), now)
  {
    hide Issues, NextNumber, Recorded, Closed, OwnBelowMark, Adds, EveryHookOwed, Read;
    var news := AcceptedNews(s, payment, now);
    var r := if news.Some? then Recorded(s, news.value, 0, now) else s;
    AddsNothing(s, now);
    if news.Some? {
      RecordedStaysSound(s, news.value, 0, now);
      RecordedAdds(s, news.value, 0, now);
      AddedKeepsHooks(s, r, news.value, now);
    }
    WatchingKeepsHooks(s, r, Taken(s, payment, dueAt, now), now);
  }

  lemma WatchingKeepsHooks(s: State, u: State, t: State, now: Time)
    requires EveryHookOwed(u) && Adds(s, u, now) && t.rows == u.rows && t.tries == u.tries
    ensures EveryHookOwed(t) && Adds(s, t, now)
  {
    assert forall i, url, settledAt :: OwedSince(u, i, url, settledAt) ==> OwedSince(t, i, url, settledAt);
  }

  lemma LandedKeepsHooks(s: State, id: Id, url: Url, now: Time)
    requires Sound(s) && EveryHookOwed(s)
    ensures EveryHookOwed(Landed(s, id, url, now)) && Adds(s, Landed(s, id, url, now), now)
  {
    hide Issues, NextNumber, Recorded, Closed, OwnBelowMark, Adds, EveryHookOwed;
    var fact := DeliveredFact(s.self, NextNumber(s, Delivered), id, url, now);
    RecordedStaysSound(s, fact, 0, now);
    RecordedAdds(s, fact, 0, now);
    AddedKeepsHooks(s, Landed(s, id, url, now), fact, now);
  }

  lemma FailingKeepsHooks(s: State, key: Key, backoff: nat, now: Time)
    requires Filed(s) && EveryHookOwed(s) && Timely(s, now)
    ensures EveryHookOwed(Undelivered(s, key, backoff, now)) && Timely(Undelivered(s, key, backoff, now), now)
  {
    var t := Undelivered(s, key, backoff, now);
    assert forall i, url, settledAt :: OwedSince(s, i, url, settledAt) ==> OwedSince(t, i, url, settledAt);
  }

  lemma LeasingKeepsHooks(s: State, t: State, now: Time)
    requires EveryHookOwed(s) && Timely(s, now) && Leases(s, t)
    ensures EveryHookOwed(t) && Timely(t, now)
  {
    assert forall i, url, settledAt :: OwedSince(s, i, url, settledAt) ==> OwedSince(t, i, url, settledAt);
  }

  ghost predicate Kept(s: State, clock: Time) {
    Sound(s) && EveryHookOwed(s) && Timely(s, clock)
  }

  lemma TakesKeeps(s: State, t: State, step: Step, clock: Time, now: Time)
    requires Kept(s, clock) && Consistent(s) && clock <= now && Takes(s, t, step, now)
    ensures Kept(t, now) && Consistent(t)
  {
    hide Sound, EveryHookOwed, Timely, Adds, Issues, Prunes;
    hide Taken, Opened, Landed, Pruned, Undelivered, Read, Leases, Swept;
    TimePasses(s, clock, now);
    assert Filed(s) by { SoundIsFiled(s); }
    match step
    case Insert(payment, dueAt) =>
      if !s.Settled(payment.id) {
        TakenIssues(s, payment, dueAt, now);
        TakenKeepsHooks(s, payment, dueAt, now);
        AddsKeepsTimely(s, t, now);
        TakenConsistent(s, payment, dueAt, now);
      }
    case Pay(id, opens) => SettlingKeeps(s, id, opens, now);
    case Deliver(id, url) =>
      LandedIssues(s, id, url, now);
      LandedKeepsHooks(s, id, url, now);
      AddsKeepsTimely(s, t, now);
      LandedConsistent(s, id, url, now);
    case Fail(key, backoff) =>
      FailingKeepsHooks(s, key, backoff, now);
      FailingKeepsRows(s, key, backoff, now);
      SameRowsKept(s, t);
    case Sweep(grace, order) =>
      SweepingAlone(s, grace, order, now);
    case Lease =>
      LeasingKeepsHooks(s, t, now);
      LeasingKeepsRows(s, t);
      SameRowsKept(s, t);
  }

  lemma TimePasses(s: State, clock: Time, now: Time)
    requires Timely(s, clock) && clock <= now
    ensures Timely(s, now)
  {
  }

  lemma SoundIsFiled(s: State)
    requires Sound(s)
    ensures Filed(s)
  {
  }

  lemma FailingKeepsRows(s: State, key: Key, backoff: nat, now: Time)
    ensures var t := Undelivered(s, key, backoff, now);
      SameFacts(s, t)
  {
  }

  lemma LeasingKeepsRows(s: State, t: State)
    requires Leases(s, t)
    ensures SameFacts(s, t)
  {
  }

  lemma SameRowsKept(s: State, t: State)
    requires SameFacts(s, t)
    ensures Sound(s) ==> Sound(t)
    ensures Consistent(s) ==> Consistent(t)
  {
  }

  lemma TakenConsistent(s: State, payment: Payment, dueAt: Time, now: Time)
    requires Sound(s) && Consistent(s)
    ensures Consistent(Taken(s, payment, dueAt, now))
  {
    hide Issues, Sound, NextNumber, Recorded, Read;
    var news := AcceptedNews(s, payment, now);
    if news.Some? { RecordedStaysSound(s, news.value, 0, now); }
  }

  lemma LandedConsistent(s: State, id: Id, url: Url, now: Time)
    requires Sound(s) && Consistent(s)
    ensures Consistent(Landed(s, id, url, now))
  {
    hide Issues, Sound, NextNumber, Recorded;
    RecordedStaysSound(s, DeliveredFact(s.self, NextNumber(s, Delivered), id, url, now), 0, now);
  }

  lemma SettlingKeeps(s: State, id: Id, opens: bool, now: Time)
    requires Sound(s) && EveryHookOwed(s) && Timely(s, now) && Consistent(s)
    ensures Kept(Settling(s, id, opens, now), now) && Consistent(Settling(s, id, opens, now))
  {
    hide Sound, EveryHookOwed, Timely, Adds, Issues, Opened, Read, Consistent;
    if s.Settled(id) {
      SameRowsKept(s, Forgotten(s, id));
      AddsNothing(s, now);
      WatchingKeepsHooks(s, s, Forgotten(s, id), now);
      SoundIsFiled(s);
      AddsKeepsTimely(s, Forgotten(s, id), now);
    } else if Read(s, id).Some? && opens {
      var watched := Read(s, id).value;
      ReadWasAccepted(s, id);
      OpenedIssues(s, watched, now);
      OpenedOwesHooks(s, watched, now);
      SoundIsFiled(s);
      AddsKeepsTimely(s, Opened(s, watched, now), now);
      OpenedConsistent(s, watched, now);
    }
  }

  lemma OpenedConsistent(s: State, watched: Payment, now: Time)
    requires Sound(s) && Consistent(s)
    ensures Consistent(Opened(s, watched, now))
  {
    hide Issues, Sound, NextNumber, Recorded, OwedAll;
    var record := watched.(webhooks := []);
    var fact := PaidFact(s.self, NextNumber(s, Paid), watched.id, record, now);
    var r := Recorded(s, fact, 0, now);
    RecordedStaysSound(s, fact, 0, now);
    OwedAllKeepsBooks(r, watched.id, watched.webhooks, Body(record, now), now);
    SameRowsConsistent(OwedAll(r, watched.id, watched.webhooks, Body(record, now), now), Opened(s, watched, now));
  }

  lemma HasAMember(order: seq<Missing>)
    requires order != []
    ensures exists m :: m in order
  {
    assert order[0] in order;
  }

  /** On an instance with no peers the repair has nothing to do, so a sweep only deletes. */
  lemma SweepingAlone(s: State, grace: nat, order: seq<Missing>, now: Time)
    requires Sound(s) && EveryHookOwed(s) && Timely(s, now) && Consistent(s)
    requires Lists(order, Unowed(Pruned(s, grace, now), now))
    ensures Unowed(Pruned(s, grace, now), now) == {}
    ensures Swept(s, grace, order, now) == Pruned(s, grace, now)
    ensures Kept(Swept(s, grace, order, now), now) && Consistent(Swept(s, grace, order, now))
  {
    hide Pruned, Sound, EveryHookOwed, Timely, Unowed;
    PrunedPrunes(s, grace, now);
    PrunedKeepsHooksOwed(s, grace, now);
    HookOwedIsNotUnowed(Pruned(s, grace, now), now);
    if order != [] { HasAMember(order); }
  }

  lemma {:induction false} AloneKeeps(trace: seq<State>, steps: seq<Step>, clock: seq<Time>, n: nat)
    requires Alone(trace, steps, clock) && n < |trace|
    ensures Kept(trace[n], clock[n]) && Consistent(trace[n])
  {
    hide Kept, Consistent, Takes;
    if n == 0 {
      EmptyKept(trace[0], clock[0]);
    } else {
      AloneKeeps(trace, steps, clock, n - 1);
      TakesKeeps(trace[n - 1], trace[n], steps[n - 1], clock[n - 1], clock[n]);
    }
  }

  lemma EmptyKept(s: State, clock: Time)
    requires exists self :: s == Empty(self)
    ensures Kept(s, clock) && Consistent(s)
  {
  }

  /** The theorem: in no run of an instance without peers does a sweep find a webhook to repair. */
  lemma AloneRepairNeverFires(trace: seq<State>, steps: seq<Step>, clock: seq<Time>, n: nat, grace: nat, now: Time)
    requires Alone(trace, steps, clock) && n < |trace| && clock[n] <= now
    ensures Unowed(Pruned(trace[n], grace, now), now) == {}
  {
    hide Pruned, Unowed, Takes, EveryHookOwed, Timely, Sound;
    AloneKeeps(trace, steps, clock, n);
    TimePasses(trace[n], clock[n], now);
    PrunedKeepsHooksOwed(trace[n], grace, now);
    HookOwedIsNotUnowed(Pruned(trace[n], grace, now), now);
  }
}
