/** The worklist says what the facts say: accepted, minus settled, minus expired. */
module Worklist {
  import opened Options
  import opened Facts
  import opened LedgerState
  import opened Replication

  ghost function PaidIds(rows: map<Key, Fact>): set<Id> {
    set k | k in rows && rows[k].PaidFact? :: rows[k].id
  }

  ghost function AcceptedPairs(rows: map<Key, Fact>): set<(Id, Time)> {
    set k | k in rows && rows[k].AcceptedFact? :: (rows[k].id, rows[k].expiresAt)
  }

  /** Nothing is both watched and settled, and whatever is watched was accepted with that very expiry. */
  ghost predicate Watchful(s: State) {
    && s.schedule.Keys !! PaidIds(s.rows)
    && (forall id :: id in s.schedule ==> (id, s.schedule[id].expiresAt) in AcceptedPairs(s.rows))
  }

  /** An accepted row and the payment it carries name the same payment and the same expiry. */
  ghost predicate Consistent(s: State) {
    forall k :: k in s.rows && s.rows[k].AcceptedFact? ==>
      s.rows[k].payment.id == s.rows[k].id && s.rows[k].payment.expiresAt == s.rows[k].expiresAt
  }

  /** Whatever was accepted is settled or watched. */
  ghost predicate Complete(s: State) {
    forall p :: p in AcceptedPairs(s.rows) ==> p.0 in PaidIds(s.rows) || p.0 in s.schedule
  }

  /** All accepted rows of an id expire together. */
  ghost predicate Agreed(s: State) {
    forall p, q :: p in AcceptedPairs(s.rows) && q in AcceptedPairs(s.rows) && p.0 == q.0 ==> p.1 == q.1
  }

  // ---------------------------------------------------------------- adding rows

  lemma AddedBooks(rows: map<Key, Fact>, fact: Fact)
    requires fact.Name() !in rows
    ensures PaidIds(rows[fact.Name() := fact]) == PaidIds(rows) + (if fact.PaidFact? then {fact.id} else {})
    ensures AcceptedPairs(rows[fact.Name() := fact])
         == AcceptedPairs(rows) + (if fact.AcceptedFact? then {(fact.id, fact.expiresAt)} else {})
  {
    var more := rows[fact.Name() := fact];
    assert forall k :: k in more <==> k in rows || k == fact.Name();
    forall id | id in PaidIds(rows) ensures id in PaidIds(more) {
      var k :| k in rows && rows[k].PaidFact? && rows[k].id == id;
      assert more[k] == rows[k];
    }
    forall p | p in AcceptedPairs(rows) ensures p in AcceptedPairs(more) {
      var k :| k in rows && rows[k].AcceptedFact? && (rows[k].id, rows[k].expiresAt) == p;
      assert more[k] == rows[k];
    }
    assert more[fact.Name()] == fact;
  }

  lemma SettledIsPaid(s: State, id: Id)
    ensures s.Settled(id) <==> id in PaidIds(s.rows)
  {
  }

  lemma WatchingKeeps(s: State, id: Id, expiresAt: Time, dueAt: Time)
    requires Watchful(s) && (id, expiresAt) in AcceptedPairs(s.rows)
    ensures Watchful(Watching(s, id, expiresAt, dueAt))
    ensures id in PaidIds(s.rows) || id in Watching(s, id, expiresAt, dueAt).schedule
    ensures s.schedule.Keys <= Watching(s, id, expiresAt, dueAt).schedule.Keys
  {
    SettledIsPaid(s, id);
  }

  lemma AddedKeepsWatchful(s: State, t: State, fact: Fact)
    requires Watchful(s) && t.schedule == s.schedule && fact.Name() !in s.rows && t.rows == s.rows[fact.Name() := fact]
    ensures !fact.PaidFact? ==> Watchful(t)
    ensures fact.PaidFact? ==> Watchful(Forgotten(t, fact.id))
  {
    AddedBooks(s.rows, fact);
  }

  lemma AddedKeepsConsistent(s: State, t: State, fact: Fact)
    requires Consistent(s) && t.rows == s.rows[fact.Name() := fact]
    requires fact.AcceptedFact? ==> fact.payment.id == fact.id && fact.payment.expiresAt == fact.expiresAt
    ensures Consistent(t)
  {
  }

  lemma SameRowsConsistent(s: State, t: State)
    requires t.rows == s.rows && Consistent(s)
    ensures Consistent(t)
  {
  }

  // ---------------------------------------------------------------- absorbing

  lemma LearnedKeeps(rules: Rules, s: State, fact: Fact, standby: Fact -> Time, now: Time)
    requires Watchful(s) && Consistent(s)
    ensures var t := Learned(rules, s, fact, standby, now);
      Watchful(t) && Consistent(t) && (Complete(s) ==> Complete(t))
  {
    hide Recorded, Watchful, Consistent, Complete, Watching, Forgotten, PaidIds, AcceptedPairs;
    if !s.Known(fact.Name()) && Proven(rules, fact) {
      var r := Recorded(s, fact, rules.takeoverAt(fact), now);
      RecordedFiles(s, fact, rules.takeoverAt(fact), now);
      AddedKeepsConsistent(s, r, fact);
      AddedKeepsWatchful(s, r, fact);
      AddedBooks(s.rows, fact);
      LearnedFromRecord(rules, s, r, fact, standby);
    }
  }

  /** The last part of absorbing one fact, once it is recorded. */
  lemma LearnedFromRecord(rules: Rules, s: State, r: State, fact: Fact, standby: Fact -> Time)
    requires r.schedule == s.schedule && Consistent(r)
    requires !fact.PaidFact? ==> Watchful(r)
    requires fact.PaidFact? ==> Watchful(Forgotten(r, fact.id))
    requires PaidIds(r.rows) == PaidIds(s.rows) + (if fact.PaidFact? then {fact.id} else {})
    requires AcceptedPairs(r.rows)
          == AcceptedPairs(s.rows) + (if fact.AcceptedFact? then {(fact.id, fact.expiresAt)} else {})
    ensures var t := match fact
        case AcceptedFact(_, _, id, _, _, expiresAt) => Watching(r, id, expiresAt, standby(fact))
        case PaidFact(_, _, id, _, _) => Forgotten(r, id)
        case OutboxFact(_, _, _, _, _, _) => r
        case DeliveredFact(_, _, _, _, _) => r;
      Watchful(t) && Consistent(t) && (Complete(s) ==> Complete(t))
  {
    if fact.AcceptedFact? {
      WatchingKeeps(r, fact.id, fact.expiresAt, standby(fact));
    }
  }

  lemma {:induction false} LearnedAllKeeps(
    rules: Rules, s: State, facts: seq<Fact>, standby: Fact -> Time, now: Time)
    requires Watchful(s) && Consistent(s)
    ensures var t := LearnedAll(rules, s, facts, standby, now);
      Watchful(t) && Consistent(t) && (Complete(s) ==> Complete(t))
    decreases |facts|
  {
    hide Learned, Watchful, Consistent, Complete;
    if facts != [] {
      LearnedKeeps(rules, s, facts[0], standby, now);
      LearnedAllKeeps(rules, Learned(rules, s, facts[0], standby, now), facts[1..], standby, now);
    }
  }

  lemma SameBooks(s: State, t: State)
    requires t.schedule == s.schedule
    requires PaidIds(t.rows) == PaidIds(s.rows) && AcceptedPairs(t.rows) == AcceptedPairs(s.rows)
    ensures Watchful(s) ==> Watchful(t)
    ensures Complete(s) ==> Complete(t)
  {
  }

  lemma AbsorbedKeeps(
    rules: Rules, s: State, facts: seq<Fact>, through: Option<Watermarks>, standby: Fact -> Time, now: Time)
    requires Watchful(s) && Consistent(s)
    ensures var t := Absorbed(rules, s, facts, through, standby, now);
      Watchful(t) && Consistent(t) && (Complete(s) ==> Complete(t))
  {
    hide LearnedAll, PaidIds, AcceptedPairs, Watchful, Complete;
    var t := LearnedAll(rules, s, InOrder(facts), standby, now);
    LearnedAllKeeps(rules, s, InOrder(facts), standby, now);
    if through.Some? {
      SameBooks(t, Covered(t, through.value));
    }
  }

  /** A watch that stays keeps its expiry and its turn. */
  ghost predicate MovesNoWatch(s: State, t: State) {
    forall id :: id in s.schedule && id in t.schedule ==> t.schedule[id] == s.schedule[id]
  }

  /** A watch ends only with a settlement. */
  ghost predicate EndsOnlySettled(s: State, t: State) {
    forall id :: id in s.schedule && id !in t.schedule ==> id in PaidIds(t.rows)
  }

  lemma LearnedMovesNoWatch(rules: Rules, s: State, fact: Fact, standby: Fact -> Time, now: Time)
    ensures var t := Learned(rules, s, fact, standby, now);
      MovesNoWatch(s, t) && EndsOnlySettled(s, t) && PaidIds(s.rows) <= PaidIds(t.rows)
  {
    hide Recorded, Proven, PaidIds;
    if !s.Known(fact.Name()) && Proven(rules, fact) {
      RecordedFiles(s, fact, rules.takeoverAt(fact), now);
      AddedBooks(s.rows, fact);
    }
  }

  /** Whatever a peer says, a payment already watched keeps its turn, and leaves the worklist only when settled. */
  lemma {:induction false} AbsorbingMovesNoWatch(
    rules: Rules, s: State, facts: seq<Fact>, standby: Fact -> Time, now: Time)
    requires Watchful(s) && Consistent(s)
    ensures var t := LearnedAll(rules, s, facts, standby, now);
      MovesNoWatch(s, t) && EndsOnlySettled(s, t) && PaidIds(s.rows) <= PaidIds(t.rows)
    decreases |facts|
  {
    hide Learned, PaidIds, AcceptedPairs, Consistent, Watchful, MovesNoWatch, EndsOnlySettled;
    if facts == [] {
      NothingMoves(s);
    } else {
      var t := Learned(rules, s, facts[0], standby, now);
      LearnedMovesNoWatch(rules, s, facts[0], standby, now);
      LearnedKeeps(rules, s, facts[0], standby, now);
      AbsorbingMovesNoWatch(rules, t, facts[1..], standby, now);
      LearnedAllKeeps(rules, t, facts[1..], standby, now);
      WatchedMeanwhile(s, t, LearnedAll(rules, t, facts[1..], standby, now));
    }
  }

  lemma NothingMoves(s: State)
    ensures MovesNoWatch(s, s) && EndsOnlySettled(s, s)
  {
  }

  lemma WatchedMeanwhile(s: State, t: State, u: State)
    requires MovesNoWatch(s, t) && EndsOnlySettled(s, t) && MovesNoWatch(t, u) && EndsOnlySettled(t, u)
    requires PaidIds(t.rows) <= PaidIds(u.rows) && Watchful(u)
    ensures MovesNoWatch(s, u) && EndsOnlySettled(s, u)
  {
    hide PaidIds, AcceptedPairs;
  }

  // ---------------------------------------------------------------- taking on

  /** The payment a ledger reads back was accepted with the expiry it carries. */
  lemma ReadWasAccepted(s: State, id: Id)
    requires Consistent(s) && Read(s, id).Some?
    ensures Read(s, id).value.id == id
    ensures (id, Read(s, id).value.expiresAt) in AcceptedPairs(s.rows)
  {
    var keys := Sorted(set k | k in s.rows && s.rows[k].AcceptedFact? && s.rows[k].id == id);
    var rows := AcceptedRows(s, id);
    assert keys[0] in keys && rows[0] == s.rows[keys[0]].payment;
    MergingKeepsFirst(rows[0], rows[1..]);
  }

  lemma {:induction false} MergingKeepsFirst(one: Payment, others: seq<Payment>)
    ensures OneFromEvery(one, others) == one.(webhooks := OneFromEvery(one, others).webhooks)
    decreases |others|
  {
    if others != [] {
      MergingKeepsFirst(one.(webhooks := MergedWebhooks(one.webhooks, others[0].webhooks)), others[1..]);
    }
  }

  /** Any accepted row of an id makes it readable. */
  lemma AcceptedIsReadable(s: State, id: Id, expiresAt: Time)
    requires (id, expiresAt) in AcceptedPairs(s.rows)
    ensures Read(s, id).Some?
  {
    var keys := set k | k in s.rows && s.rows[k].AcceptedFact? && s.rows[k].id == id;
    var k :| k in keys && s.rows[k].expiresAt == expiresAt;
    assert k in Sorted(keys);
  }

  /** There is a payment for everything watched. */
  lemma WatchedHavePayments(s: State, ids: set<Id>, payments: map<Id, Payment>)
    requires Watchful(s) && Consistent(s) && ids <= s.schedule.Keys && ArePayments(s, ids, payments)
    ensures payments.Keys == ids
    ensures forall id :: id in ids ==> payments[id].id == id
  {
    hide Read, Consistent;
    forall id | id in ids ensures Read(s, id).Some? && Read(s, id).value.id == id {
      AcceptedIsReadable(s, id, s.schedule[id].expiresAt);
      ReadWasAccepted(s, id);
    }
  }

  /** Which payments a ledger reads back depends on its rows alone. */
  lemma PaymentsSeeRows(s: State, t: State, ids: set<Id>, payments: map<Id, Payment>)
    requires t.rows == s.rows && ArePayments(s, ids, payments)
    ensures ArePayments(t, ids, payments)
  {
  }

  lemma TakenKeeps(s: State, payment: Payment, dueAt: Time, now: Time)
    requires Sound(s) && Watchful(s) && Consistent(s)
    ensures var t := Taken(s, payment, dueAt, now);
      Watchful(t) && Consistent(t) && (Complete(s) ==> Complete(t))
  {
    hide Recorded, Watchful, Consistent, Complete, Watching, PaidIds, AcceptedPairs, Sound, Issues, Read, NextNumber;
    var held, news := Read(s, payment.id), AcceptedNews(s, payment, now);
    var r := if news.Some? then Recorded(s, news.value, 0, now) else s;
    if held.Some? { ReadWasAccepted(s, payment.id); }
    if news.Some? {
      var fact := news.value;
      RecordedStaysSound(s, fact, 0, now);
      AddedKeepsConsistent(s, r, fact);
      AddedKeepsWatchful(s, r, fact);
      AddedBooks(s.rows, fact);
    }
    TakenFromRecord(
      s, r, payment.id, held.Or(payment).expiresAt, dueAt,
      if news.Some? then {(payment.id, payment.expiresAt)} else {});
  }

  lemma TakenFromRecord(s: State, r: State, id: Id, expiresAt: Time, dueAt: Time, added: set<(Id, Time)>)
    requires r.schedule == s.schedule && Watchful(r) && Consistent(r)
    requires PaidIds(r.rows) == PaidIds(s.rows) && AcceptedPairs(r.rows) == AcceptedPairs(s.rows) + added
    requires forall p :: p in added ==> p.0 == id
    requires (id, expiresAt) in AcceptedPairs(r.rows)
    ensures var t := Watching(r, id, expiresAt, dueAt);
      Watchful(t) && Consistent(t) && (Complete(s) ==> Complete(t))
  {
    WatchingKeeps(r, id, expiresAt, dueAt);
  }

  // ---------------------------------------------------------------- writing the other facts

  lemma OwedKeepsBooks(s: State, id: Id, url: Url, body: Body, now: Time)
    requires Sound(s)
    ensures var t := Owed(s, id, url, body, now);
      && t.schedule == s.schedule && PaidIds(t.rows) == PaidIds(s.rows)
      && AcceptedPairs(t.rows) == AcceptedPairs(s.rows)
      && (Consistent(s) ==> Consistent(t))
  {
    hide Recorded, PaidIds, AcceptedPairs, Consistent, Sound, Issues, NextNumber;
    var fact := OutboxFact(s.self, NextNumber(s, Outbox), id, url, body, now);
    RecordedStaysSound(s, fact, 0, now);
    AddedBooks(s.rows, fact);
    if Consistent(s) { AddedKeepsConsistent(s, Owed(s, id, url, body, now), fact); }
  }

  lemma {:induction false} OwedAllKeepsBooks(s: State, id: Id, urls: seq<Url>, body: Body, now: Time)
    requires Sound(s)
    ensures var t := OwedAll(s, id, urls, body, now);
      && t.schedule == s.schedule && PaidIds(t.rows) == PaidIds(s.rows)
      && AcceptedPairs(t.rows) == AcceptedPairs(s.rows)
      && (Consistent(s) ==> Consistent(t))
    decreases |urls|
  {
    hide Owed, PaidIds, AcceptedPairs, Consistent, Sound, Issues;
    if urls != [] {
      OwedIssues(s, id, urls[0], body, now);
      OwedKeepsBooks(s, id, urls[0], body, now);
      OwedAllKeepsBooks(Owed(s, id, urls[0], body, now), id, urls[1..], body, now);
    }
  }

  lemma {:induction false} OwedEveryKeepsBooks(s: State, order: seq<Missing>, now: Time)
    requires Sound(s)
    ensures var t := OwedEvery(s, order, now);
      && t.schedule == s.schedule && PaidIds(t.rows) == PaidIds(s.rows)
      && AcceptedPairs(t.rows) == AcceptedPairs(s.rows)
      && (Consistent(s) ==> Consistent(t))
    decreases |order|
  {
    hide Owed, PaidIds, AcceptedPairs, Consistent, Sound, Issues, Settlement;
    if order != [] {
      var settled := Settlement(s, order[0].id);
      if settled.Some? {
        OwedIssues(s, order[0].id, order[0].url, Body(settled.value, order[0].settledAt), now);
        OwedKeepsBooks(s, order[0].id, order[0].url, Body(settled.value, order[0].settledAt), now);
      }
      OwedEveryKeepsBooks(OwedMissing(s, order[0], now), order[1..], now);
    }
  }

  /** Settling takes a payment off the worklist in the same transaction that settles it. */
  lemma OpenedKeeps(s: State, watched: Payment, now: Time)
    requires Sound(s) && Watchful(s) && Consistent(s)
    ensures var t := Opened(s, watched, now);
      Watchful(t) && Consistent(t) && (Complete(s) ==> Complete(t))
    ensures watched.id in PaidIds(Opened(s, watched, now).rows)
  {
    hide Recorded, OwedAll, PaidIds, AcceptedPairs, Consistent, Watchful, Complete, Sound, Issues, NextNumber;
    var record := watched.(webhooks := []);
    var fact := PaidFact(s.self, NextNumber(s, Paid), watched.id, record, now);
    var r := Recorded(s, fact, 0, now);
    RecordedStaysSound(s, fact, 0, now);
    AddedBooks(s.rows, fact);
    AddedKeepsConsistent(s, r, fact);
    OwedAllKeepsBooks(r, watched.id, watched.webhooks, Body(record, now), now);
    ForgottenOnceSettled(s, OwedAll(r, watched.id, watched.webhooks, Body(record, now), now), watched.id);
  }

  lemma ForgottenOnceSettled(s: State, u: State, id: Id)
    requires Watchful(s) && Consistent(u) && u.schedule == s.schedule
    requires PaidIds(u.rows) == PaidIds(s.rows) + {id} && AcceptedPairs(u.rows) == AcceptedPairs(s.rows)
    ensures var t := Forgotten(u, id);
      Watchful(t) && Consistent(t) && (Complete(s) ==> Complete(t))
  {
  }

  lemma LandedKeeps(s: State, id: Id, url: Url, now: Time)
    requires Sound(s) && Watchful(s) && Consistent(s)
    ensures var t := Landed(s, id, url, now);
      Watchful(t) && Consistent(t) && (Complete(s) ==> Complete(t))
  {
    hide Recorded, PaidIds, AcceptedPairs, Consistent, Watchful, Complete, Sound, Issues, NextNumber;
    var fact := DeliveredFact(s.self, NextNumber(s, Delivered), id, url, now);
    RecordedStaysSound(s, fact, 0, now);
    AddedBooks(s.rows, fact);
    AddedKeepsConsistent(s, Landed(s, id, url, now), fact);
    SameBooks(s, Landed(s, id, url, now));
  }

  // ---------------------------------------------------------------- the sweep

  lemma PrunedKeepsWatchful(s: State, grace: nat, now: Time)
    requires Watchful(s)
    ensures Watchful(Pruned(s, grace, now))
    ensures Consistent(s) ==> Consistent(Pruned(s, grace, now))
  {
    var t, cut := Pruned(s, grace, now), now - grace;
    forall id | id in t.schedule ensures (id, t.schedule[id].expiresAt) in AcceptedPairs(t.rows) {
      var k :| k in s.rows && s.rows[k].AcceptedFact?
        && (s.rows[k].id, s.rows[k].expiresAt) == (id, s.schedule[id].expiresAt);
      assert id !in PaidIds(s.rows);
      assert k in t.rows;
    }
  }

  /** No payment whose watch ends by `cut` has an accepted row that outlasts it. */
  ghost predicate NoneOutlasts(s: State, cut: int) {
    forall p :: p in AcceptedPairs(s.rows) && p.0 in s.schedule && cut < p.1 ==> cut < s.schedule[p.0].expiresAt
  }

  /** The sweep strands no payment exactly when no accepted row outlasts its watch. */
  lemma PrunedKeepsComplete(s: State, grace: nat, now: Time)
    requires Watchful(s) && Complete(s)
    ensures Complete(Pruned(s, grace, now)) <==> NoneOutlasts(s, now - grace)
    ensures Agreed(s) ==> NoneOutlasts(s, now - grace)
  {
    hide Pruned, Complete, NoneOutlasts, Agreed, Watchful;
    if NoneOutlasts(s, now - grace) {
      PrunedStrandsNone(s, grace, now);
    } else {
      PrunedStrandsOne(s, grace, now);
    }
    if Agreed(s) { AgreedNoneOutlasts(s, now - grace); }
  }

  lemma PrunedStrandsNone(s: State, grace: nat, now: Time)
    requires Complete(s) && NoneOutlasts(s, now - grace)
    ensures Complete(Pruned(s, grace, now))
  {
    var t, cut := Pruned(s, grace, now), now - grace;
    forall p | p in AcceptedPairs(t.rows) ensures p.0 in PaidIds(t.rows) || p.0 in t.schedule {
      var k :| k in t.rows && t.rows[k].AcceptedFact? && (t.rows[k].id, t.rows[k].expiresAt) == p;
      assert p in AcceptedPairs(s.rows);
      if p.0 !in s.schedule {
        var q :| q in s.rows && s.rows[q].PaidFact? && s.rows[q].id == p.0;
        assert q in t.rows;
      }
    }
  }

  lemma PrunedStrandsOne(s: State, grace: nat, now: Time)
    requires Watchful(s) && !NoneOutlasts(s, now - grace)
    ensures !Complete(Pruned(s, grace, now))
  {
    var t, cut := Pruned(s, grace, now), now - grace;
    var p :| p in AcceptedPairs(s.rows) && p.0 in s.schedule && cut < p.1 && s.schedule[p.0].expiresAt <= cut;
    var k :| k in s.rows && s.rows[k].AcceptedFact? && (s.rows[k].id, s.rows[k].expiresAt) == p;
    assert p.0 !in PaidIds(s.rows);
    assert k in t.rows;
    assert p in AcceptedPairs(t.rows) && p.0 !in PaidIds(t.rows) && p.0 !in t.schedule;
  }

  lemma AgreedNoneOutlasts(s: State, cut: int)
    requires Watchful(s) && Agreed(s)
    ensures NoneOutlasts(s, cut)
  {
    forall p | p in AcceptedPairs(s.rows) && p.0 in s.schedule && cut < p.1 ensures cut < s.schedule[p.0].expiresAt {
      assert (p.0, s.schedule[p.0].expiresAt) in AcceptedPairs(s.rows);
    }
  }

  /** Where they disagree, it can: the earlier expiry takes the watch and leaves the later row behind. */
  lemma DisagreementStrands()
    ensures exists s: State, grace: nat, now: Time ::
      Sound(s) && Watchful(s) && Consistent(s) && Complete(s) && !Complete(Pruned(s, grace, now))
  {
    var early := Payment("x", 0, 1, "", None, 0, []);
    var late := early.(expiresAt := 9);
    var a, b := AcceptedFact(0, 1, "x", early, 0, 1), AcceptedFact(1, 1, "x", late, 0, 9);
    var rows := map[a.Name() := a, b.Name() := b];
    var marks := map[Slot(Accepted, 0) := 1, Slot(Accepted, 1) := 1];
    var s := State(0, rows, marks, map["x" := Watch(1, Some(0), false)], map[], map[]);
    assert a.Name() in rows && b.Name() in rows;
    assert Sound(s);
    var t := Pruned(s, 0, 5);
    assert b.Name() in t.rows && t.rows[b.Name()] == b;
    assert ("x", 9) in AcceptedPairs(t.rows);
    assert "x" !in PaidIds(t.rows) && "x" !in t.schedule;
    assert !Complete(Pruned(s, 0, 5));
    assert ("x", 1) in AcceptedPairs(s.rows);
  }

  lemma RescheduledKeeps(s: State, t: State)
    requires Rescheduled(s, t) && Watchful(s)
    ensures Watchful(t) && (Complete(s) ==> Complete(t))
  {
  }
}
