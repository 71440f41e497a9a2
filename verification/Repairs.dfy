/** Which webhooks a sweep repairs, and what it sends them. */
module Repairs {
  import opened Options
  import opened Facts
  import opened LedgerState
  import opened LedgerSteps
  import opened Replication
  import opened Writing

  /**
   An accepted row lists a webhook of a payment whose settlement was heard long enough ago, and nothing
   came of it.
   */
  ghost predicate Neglected(s: State, a: Key, p: Key, url: Url, now: Time) {
    && a in s.rows && s.rows[a].AcceptedFact? && url in s.rows[a].payment.webhooks
    && p in s.rows && s.rows[p].PaidFact? && s.rows[p].id == s.rows[a].id
    && p in s.heard && s.heard[p] + UNOWED_SLACK_SECS <= now
    && Unanswered(s, s.rows[a].id, url)
  }

  /** No outbox row and no tombstone is about this webhook. */
  ghost predicate Unanswered(s: State, id: Id, url: Url) {
    forall k :: k in s.rows && (s.rows[k].OutboxFact? || s.rows[k].DeliveredFact?) ==>
      s.rows[k].id != id || s.rows[k].url != url
  }

  lemma UnansweredHasNoRow(s: State, id: Id, url: Url)
    ensures Unanswered(s, id, url) <==> !s.HasRow(Outbox, id, url) && !s.HasRow(Delivered, id, url)
  {
    forall k | k in s.rows && (s.rows[k].OutboxFact? || s.rows[k].DeliveredFact?)
      ensures s.rows[k].Table() == Outbox || s.rows[k].Table() == Delivered
    {
    }
  }

  lemma UnowedIsNeglected(s: State, now: Time, m: Missing)
    requires Filed(s)
    ensures m in Unowed(s, now) <==>
      exists a, p :: Neglected(s, a, p, m.url, now) && m.id == s.rows[a].id && m.settledAt == s.rows[p].settledAt
  {
    forall id, url
      ensures Unanswered(s, id, url) <==> !s.HasRow(Outbox, id, url) && !s.HasRow(Delivered, id, url)
    {
      UnansweredHasNoRow(s, id, url);
    }
    hide State.HasRow, Unanswered;
    if m in Unowed(s, now) {
      var a, p :| a in s.rows && s.rows[a].AcceptedFact? && m.url in s.rows[a].payment.webhooks
        && p in s.rows && s.rows[p].PaidFact? && s.rows[p].id == s.rows[a].id
        && p in s.heard && s.heard[p] <= now - UNOWED_SLACK_SECS
        && !s.HasRow(Outbox, s.rows[a].id, m.url) && !s.HasRow(Delivered, s.rows[a].id, m.url)
        && m == Missing(s.rows[a].id, m.url, s.rows[p].settledAt);
      assert Neglected(s, a, p, m.url, now);
    }
  }

  // ---------------------------------------------------------------- what a repair writes

  /** The row that repairs one webhook. */
  function RepairRow(s: State, number: nat, m: Missing, settled: Payment, now: Time): Fact {
    OutboxFact(s.self, number, m.id, m.url, Body(settled, m.settledAt), now)
  }

  /** A settlement of this payment, as it was filed. */
  ghost predicate IsSettlement(s: State, id: Id, settled: Payment) {
    exists p :: p in s.rows && s.rows[p].PaidFact? && s.rows[p].id == id && s.rows[p].payment == settled
  }

  lemma SettlementIsFiled(s: State, id: Id)
    ensures Settlement(s, id).Some? <==> s.Settled(id)
    ensures Settlement(s, id).Some? ==> IsSettlement(s, id, Settlement(s, id).value)
  {
    var keys := set k | k in s.rows && s.rows[k].PaidFact? && s.rows[k].id == id;
    var sorted := Sorted(keys);
    if sorted != [] {
      assert sorted[0] in sorted;
    }
    if s.Settled(id) {
      var k :| k in s.rows && s.rows[k].PaidFact? && s.rows[k].id == id;
      assert k in keys && k in sorted;
    }
  }

  /** Rows of other tables do not move what settled a payment. */
  lemma SettlementStays(s: State, t: State, id: Id)
    requires forall k :: k in s.rows ==> k in t.rows && t.rows[k] == s.rows[k]
    requires forall k :: k in t.rows && k !in s.rows ==> !t.rows[k].PaidFact?
    ensures Settlement(t, id) == Settlement(s, id)
  {
    assert (set k | k in t.rows && t.rows[k].PaidFact? && t.rows[k].id == id)
        == (set k | k in s.rows && s.rows[k].PaidFact? && s.rows[k].id == id);
  }

  function RepairRows(
    s: State, mark: nat, order: seq<Missing>, settled: Id -> Option<Payment>, now: Time): (rows: seq<Fact>)
    requires forall m :: m in order ==> settled(m.id).Some?
    ensures |rows| == |order|
  {
    seq(|order|, i requires 0 <= i < |order| =>
      assert order[i] in order; RepairRow(s, mark + 1 + i, order[i], settled(order[i].id).value, now))
  }

  lemma FirstRepair(s: State, mark: nat, order: seq<Missing>, settled: Id -> Option<Payment>, now: Time)
    requires order != [] && forall m :: m in order ==> settled(m.id).Some?
    ensures (forall m :: m in order[1..] ==> m in order)
    ensures RepairRows(s, mark, order, settled, now)
      == [RepairRow(s, mark + 1, order[0], settled(order[0].id).value, now)]
         + RepairRows(s, mark + 1, order[1..], settled, now)
  {
  }

  lemma {:induction false} RepairingWrites(
    s: State, order: seq<Missing>, settled: Id -> Option<Payment>, now: Time)
    requires Sound(s) && forall id :: settled(id) == Settlement(s, id)
    requires forall m :: m in order ==> settled(m.id).Some?
    ensures Tells(s, OwedEvery(s, order, now), RepairRows(s, OwnMark(s, Outbox), order, settled, now))
    decreases |order|
  {
    hide Recorded, Sound, NextNumber, Tells, RepairRows, Settlement;
    if order == [] {
      TellsNothing(s);
      NoRepairs(s, settled, now);
    } else {
      var m := order[0];
      var fact := RepairRow(s, NextNumber(s, Outbox), m, settled(m.id).value, now);
      var t := OwedMissing(s, m, now);
      WritesOne(s, fact, now);
      FirstRepair(s, OwnMark(s, Outbox), order, settled, now);
      forall id ensures settled(id) == Settlement(t, id) { OneOutboxRowMore(s, t, fact, id); }
      RepairingWrites(t, order[1..], settled, now);
      SameRepairs(s, t, OwnMark(t, Outbox), order[1..], settled, now);
      TellsMore(s, t, OwedEvery(s, order, now),
        [fact], RepairRows(s, OwnMark(t, Outbox), order[1..], settled, now));
    }
  }

  lemma OneOutboxRowMore(s: State, t: State, fact: Fact, id: Id)
    requires Tells(s, t, [fact]) && fact.OutboxFact?
    ensures Settlement(t, id) == Settlement(s, id)
  {
    hide Settlement;
    SettlementStays(s, t, id);
  }

  lemma NoRepairs(s: State, settled: Id -> Option<Payment>, now: Time)
    ensures RepairRows(s, OwnMark(s, Outbox), [], settled, now) == []
  {
  }

  lemma SameRepairs(s: State, t: State, mark: nat, order: seq<Missing>, settled: Id -> Option<Payment>, now: Time)
    requires t.self == s.self && forall m :: m in order ==> settled(m.id).Some?
    ensures RepairRows(t, mark, order, settled, now) == RepairRows(s, mark, order, settled, now)
  {
  }

  // ---------------------------------------------------------------- the theorem

  /** One repair: of a neglected webhook, of this moment, told a settlement of the payment and when it settled. */
  ghost predicate IsRepair(p: State, fact: Fact, now: Time) {
    && fact.OutboxFact? && fact.origin == p.self && fact.owedAt == now
    && IsSettlement(p, fact.id, fact.body.settled)
    && exists a, q :: Neglected(p, a, q, fact.url, now)
         && p.rows[a].id == fact.id && p.rows[q].settledAt == fact.body.settledAt
  }

  /** Where one settlement of the payment is held, the webhook is sent that one and its time. */
  lemma OneSettlementIsCopied(p: State, fact: Fact, now: Time, q: Key)
    requires IsRepair(p, fact, now) && q in p.rows && p.rows[q].PaidFact? && p.rows[q].id == fact.id
    requires forall k :: k in p.rows && p.rows[k].PaidFact? && p.rows[k].id == fact.id ==> k == q
    ensures fact.body == Body(p.rows[q].payment, p.rows[q].settledAt)
  {
  }

  ghost predicate Mends(fact: Fact, id: Id, url: Url, settledAt: Time) {
    fact.OutboxFact? && fact.id == id && fact.url == url && fact.body.settledAt == settledAt
  }

  /** Each neglected webhook and settlement of its payment has one repair, and there is no other. */
  ghost predicate RepairsEach(p: State, told: seq<Fact>, now: Time) {
    && (forall f :: f in told ==> IsRepair(p, f, now))
    && (forall a, q, url :: Neglected(p, a, q, url, now) ==>
      exists f :: f in told && Mends(f, p.rows[a].id, url, p.rows[q].settledAt))
    && (forall i, j, id, url, settledAt :: 0 <= i < j < |told| && Mends(told[i], id, url, settledAt) ==>
      !Mends(told[j], id, url, settledAt))
  }

  /**
   A sweep, having deleted, writes a row for each neglected webhook and settlement of its payment, one and
   no more, and no other row: it repairs nothing that is owed, has landed, or settled just now.
   */
  lemma SweepRepairsTheNeglected(s: State, grace: nat, order: seq<Missing>, now: Time)
    requires Sound(s) && Lists(order, Unowed(Pruned(s, grace, now), now))
    ensures var p, t := Pruned(s, grace, now), Swept(s, grace, order, now);
      exists told :: Tells(p, t, told) && RepairsEach(p, told, now)
  {
    hide Pruned, Sound, OwedEvery, Tells, Settlement, Unowed, RepairsEach;
    var p := Pruned(s, grace, now);
    PrunedPrunes(s, grace, now);
    var settled := (id: Id) => Settlement(p, id);
    forall m | m in order ensures settled(m.id).Some? { MissingIsSettled(p, now, m); }
    RepairingWrites(p, order, settled, now);
    SoundOwnNumbers(p);
    RepairRowsRepairEach(p, OwnMark(p, Outbox), order, settled, now);
  }

  lemma RepairRowsRepairEach(p: State, mark: nat, order: seq<Missing>, settled: Id -> Option<Payment>, now: Time)
    requires Filed(p) && Lists(order, Unowed(p, now)) && forall id :: settled(id) == Settlement(p, id)
    requires forall m :: m in order ==> settled(m.id).Some?
    ensures RepairsEach(p, RepairRows(p, mark, order, settled, now), now)
  {
    hide Settlement, Unowed, State.Settled, Neglected, Filed, IsSettlement;
    var told := RepairRows(p, mark, order, settled, now);
    forall f | f in told ensures IsRepair(p, f, now) {
      var i :| 0 <= i < |told| && told[i] == f;
      assert order[i] in order;
      UnowedIsNeglected(p, now, order[i]);
      SettlementIsFiled(p, order[i].id);
    }
    forall a, q, url | Neglected(p, a, q, url, now)
      ensures a in p.rows && p.rows[a].AcceptedFact? && q in p.rows && p.rows[q].PaidFact?
      ensures exists f :: f in told && Mends(f, p.rows[a].id, url, p.rows[q].settledAt)
    {
      NeglectedIsListed(p, a, q, url, now);
      var m := Missing(p.rows[a].id, url, p.rows[q].settledAt);
      var i :| 0 <= i < |order| && order[i] == m;
      assert told[i] in told && Mends(told[i], m.id, m.url, m.settledAt);
    }
    NoRepairTwice(p, mark, order, settled, now);
  }

  lemma NoRepairTwice(p: State, mark: nat, order: seq<Missing>, settled: Id -> Option<Payment>, now: Time)
    requires forall i, j :: 0 <= i < j < |order| ==> order[i] != order[j]
    requires forall m :: m in order ==> settled(m.id).Some?
    ensures var told := RepairRows(p, mark, order, settled, now);
      forall i, j, id, url, settledAt :: 0 <= i < j < |told| && Mends(told[i], id, url, settledAt) ==>
        !Mends(told[j], id, url, settledAt)
  {
    var told := RepairRows(p, mark, order, settled, now);
    forall i, id, url, settledAt | 0 <= i < |told| && Mends(told[i], id, url, settledAt)
      ensures order[i] == Missing(id, url, settledAt)
    {
    }
  }

  lemma NeglectedIsListed(p: State, a: Key, q: Key, url: Url, now: Time)
    requires Filed(p) && Neglected(p, a, q, url, now)
    ensures a in p.rows && p.rows[a].AcceptedFact? && q in p.rows && p.rows[q].PaidFact?
    ensures Missing(p.rows[a].id, url, p.rows[q].settledAt) in Unowed(p, now)
  {
    hide Unowed;
    UnowedIsNeglected(p, now, Missing(p.rows[a].id, url, p.rows[q].settledAt));
  }

  lemma MissingIsSettled(p: State, now: Time, m: Missing)
    requires m in Unowed(p, now)
    ensures Settlement(p, m.id).Some?
  {
    hide Settlement, State.HasRow;
    SettlementIsFiled(p, m.id);
  }
}
