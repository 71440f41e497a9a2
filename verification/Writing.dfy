/** What an instance writes when it takes a payment on, settles it, lands a webhook or repairs one: row by row. */
module Writing {
  import opened Options
  import opened Facts
  import opened LedgerState
  import opened LedgerSteps
  import opened Replication
  import opened OrderFree
  import opened Worklist

  /** A mark moves to the number just written and no further. */
  lemma MarkFollows(s: State, t: State, fact: Fact)
    requires Sound(s) && Issues(s, t) && Sound(t) && t.rows == s.rows[fact.Name() := fact]
    requires fact.origin == s.self && fact.number == MarkIn(s.marks, fact.Lane()) + 1
    ensures MarkIn(t.marks, fact.Lane()) == fact.number
    ensures forall slot :: slot != fact.Lane() ==> MarkIn(t.marks, slot) == MarkIn(s.marks, slot)
  {
    assert fact.Name() in t.rows;
    forall slot | MarkIn(s.marks, slot) < MarkIn(t.marks, slot)
      ensures Key(slot, MarkIn(t.marks, slot)) == fact.Name()
    {
      assert Key(slot, MarkIn(t.marks, slot)) in t.rows;
    }
  }

  function OwnMark(s: State, table: Source): nat {
    MarkIn(s.marks, Slot(table, s.self))
  }

  /** One row written under the next number: it is told, and no mark but its own moves. */
  lemma WritesOne(s: State, fact: Fact, now: Time)
    requires Sound(s) && fact.origin == s.self && fact.number == NextNumber(s, fact.Table())
    ensures var t := Recorded(s, fact, 0, now);
      && Sound(t) && t.self == s.self && t.schedule == s.schedule && Tells(s, t, [fact])
      && fact.number == OwnMark(s, fact.Table()) + 1 == OwnMark(t, fact.Table())
      && (forall table: Source :: table != fact.Table() ==> OwnMark(t, table) == OwnMark(s, table))
  {
    hide Recorded, Issues, Sound, NextNumber;
    var t := Recorded(s, fact, 0, now);
    RecordedStaysSound(s, fact, 0, now);
    IssuesKeepsSelf(s, t);
    SoundOwnNumbers(s);
    NextNumberFollowsMark(s, fact.Table());
    MarkFollows(s, t, fact);
  }

  lemma IssuesKeepsSelf(s: State, t: State)
    requires Issues(s, t)
    ensures t.self == s.self
  {
  }

  lemma SoundOwnNumbers(s: State)
    requires Sound(s)
    ensures OwnBelowMark(s) && Filed(s)
  {
  }

  // ---------------------------------------------------------------- settling

  /** A row for each webhook, numbered in turn, all saying the same. */
  function HookRows(self: Origin, mark: nat, id: Id, urls: seq<Url>, body: Body, now: Time): (rows: seq<Fact>)
    ensures |rows| == |urls|
  {
    seq(|urls|, i requires 0 <= i < |urls| => OutboxFact(self, mark + 1 + i, id, urls[i], body, now))
  }

  lemma FirstHook(self: Origin, mark: nat, id: Id, urls: seq<Url>, body: Body, now: Time)
    requires urls != []
    ensures HookRows(self, mark, id, urls, body, now)
      == [OutboxFact(self, mark + 1, id, urls[0], body, now)] + HookRows(self, mark + 1, id, urls[1..], body, now)
  {
  }

  lemma {:induction false} OwingWrites(s: State, id: Id, urls: seq<Url>, body: Body, now: Time)
    requires Sound(s)
    ensures var t := OwedAll(s, id, urls, body, now);
      && Tells(s, t, HookRows(s.self, OwnMark(s, Outbox), id, urls, body, now))
      && t.schedule == s.schedule && t.heard == s.heard
    decreases |urls|
  {
    hide Recorded, Sound, NextNumber, Tells, HookRows;
    if urls == [] {
      TellsNothing(s);
      NoHooks(s, id, body, now);
    } else {
      var fact := OutboxFact(s.self, NextNumber(s, Outbox), id, urls[0], body, now);
      var t := Owed(s, id, urls[0], body, now);
      WritesOne(s, fact, now);
      OwedHears(s, id, urls[0], body, now);
      FirstHook(s.self, OwnMark(s, Outbox), id, urls, body, now);
      OwingWrites(t, id, urls[1..], body, now);
      TellsMore(s, t, OwedAll(s, id, urls, body, now),
        [fact], HookRows(s.self, OwnMark(t, Outbox), id, urls[1..], body, now));
    }
  }

  lemma NoHooks(s: State, id: Id, body: Body, now: Time)
    ensures HookRows(s.self, OwnMark(s, Outbox), id, [], body, now) == []
  {
  }

  lemma OwedHears(s: State, id: Id, url: Url, body: Body, now: Time)
    ensures Owed(s, id, url, body, now).heard == s.heard
  {
    hide NextNumber;
  }

  /**
   Settling writes the settlement, and for each webhook one outbox row: all under the next numbers, all
   of this moment, and every webhook is sent the settled payment, without its webhooks, and that moment.
   */
  lemma SettlingWrites(s: State, watched: Payment, now: Time)
    requires Sound(s)
    ensures var settled := watched.(webhooks := []);
      var paid := PaidFact(s.self, OwnMark(s, Paid) + 1, watched.id, settled, now);
      var hooks := HookRows(s.self, OwnMark(s, Outbox), watched.id, watched.webhooks, Body(settled, now), now);
      && Tells(s, Opened(s, watched, now), [paid] + hooks)
      && Opened(s, watched, now).heard == s.heard[paid.Name() := now]
      && Opened(s, watched, now).schedule == s.schedule - {watched.id}
  {
    hide Recorded, Sound, NextNumber, Tells, OwedAll, HookRows;
    var settled := watched.(webhooks := []);
    var paid := PaidFact(s.self, NextNumber(s, Paid), watched.id, settled, now);
    var r := Recorded(s, paid, 0, now);
    var u := OwedAll(r, watched.id, watched.webhooks, Body(settled, now), now);
    var hooks := HookRows(s.self, OwnMark(s, Outbox), watched.id, watched.webhooks, Body(settled, now), now);
    WritesOne(s, paid, now);
    PaidIsHeard(s, paid, now);
    OwingWrites(r, watched.id, watched.webhooks, Body(settled, now), now);
    TellsMore(s, r, u, [paid], hooks);
    SameRowsTold(s, u, Opened(s, watched, now), [paid] + hooks);
  }

  lemma PaidIsHeard(s: State, paid: Fact, now: Time)
    requires paid.PaidFact? && Tells(s, Recorded(s, paid, 0, now), [paid])
    ensures Recorded(s, paid, 0, now).heard == s.heard[paid.Name() := now]
  {
  }

  lemma SameRowsTold(s: State, t: State, u: State, told: seq<Fact>)
    requires Tells(s, t, told) && u.rows == t.rows
    ensures Tells(s, u, told)
  {
  }

  // ---------------------------------------------------------------- landing

  /** Landing a webhook writes one tombstone, of this moment, and nothing else changes. */
  lemma LandingWrites(s: State, id: Id, url: Url, now: Time)
    requires Sound(s)
    ensures var t := Landed(s, id, url, now);
      && Tells(s, t, [DeliveredFact(s.self, OwnMark(s, Delivered) + 1, id, url, now)])
      && t.schedule == s.schedule && t.heard == s.heard && t.tries == s.tries
  {
    hide Recorded, Sound, NextNumber, Tells;
    var fact := DeliveredFact(s.self, NextNumber(s, Delivered), id, url, now);
    WritesOne(s, fact, now);
    TombstoneHasNoColumns(s, fact, now);
  }

  lemma TombstoneHasNoColumns(s: State, fact: Fact, now: Time)
    requires fact.DeliveredFact?
    ensures Recorded(s, fact, 0, now).heard == s.heard && Recorded(s, fact, 0, now).tries == s.tries
  {
  }

  // ---------------------------------------------------------------- reading back, and taking on

  /** There is nothing to read where nobody accepted. */
  lemma NobodyAccepted(s: State, id: Id)
    requires forall k :: k in s.rows && s.rows[k].AcceptedFact? ==> s.rows[k].id != id
    ensures Read(s, id).None?
  {
    assert (set k | k in s.rows && s.rows[k].AcceptedFact? && s.rows[k].id == id) == {};
  }

  /** A payment accepted once reads back as that one row has it. */
  lemma ReadsTheOnlyRow(s: State, k: Key)
    requires k in s.rows && s.rows[k].AcceptedFact?
    requires forall j :: j in s.rows && s.rows[j].AcceptedFact? && s.rows[j].id == s.rows[k].id ==> j == k
    ensures Read(s, s.rows[k].id) == Some(s.rows[k].payment)
  {
    var id := s.rows[k].id;
    var keys := set j | j in s.rows && s.rows[j].AcceptedFact? && s.rows[j].id == id;
    assert keys == {k};
    SortsOne(k);
    assert AcceptedRows(s, id) == [s.rows[k].payment];
  }

  lemma SortsOne(k: Key)
    ensures Sorted({k}) == [k]
  {
    var least :| least in {k} && forall j | j in {k} :: j == least || least.Before(j);
    assert {k} - {k} == {};
  }

  /** What is read back is the first row filed, but for the webhooks. */
  lemma ReadsTheFirstRow(s: State, first: Key)
    requires first in s.rows && s.rows[first].AcceptedFact?
    requires forall k :: k in s.rows && s.rows[k].AcceptedFact? && s.rows[k].id == s.rows[first].id ==>
      k == first || first.Before(k)
    ensures var read := Read(s, s.rows[first].id);
      read.Some? && read.value == s.rows[first].payment.(webhooks := read.value.webhooks)
  {
    var id := s.rows[first].id;
    var keys := Sorted(set k | k in s.rows && s.rows[k].AcceptedFact? && s.rows[k].id == id);
    var rows := AcceptedRows(s, id);
    assert first in keys;
    assert keys[0] in keys && keys[0] == first;
    assert rows[0] == s.rows[first].payment;
    MergingKeepsFirst(rows[0], rows[1..]);
  }

  /** Whether a payment asks for a webhook its accepted rows do not carry yet. */
  ghost predicate AsksForMore(s: State, payment: Payment) {
    exists url :: url in payment.webhooks && !Hooked(s, payment.id, url)
  }

  /**
   Taking a payment on writes a row if and only if nobody has accepted it or it asks for a webhook
   nobody has; the row is the payment itself, of this moment, with every webhook there is now.
   */
  lemma TakingWrites(s: State, payment: Payment, dueAt: Time, now: Time)
    requires Sound(s)
    ensures var t := Taken(s, payment, dueAt, now);
      if Read(s, payment.id).None? || AsksForMore(s, payment) then
        exists urls :: Tells(s, t, [Accepts(s, payment, urls, now)])
          && (forall url :: url in urls <==> url in payment.webhooks || Hooked(s, payment.id, url))
          && (Read(s, payment.id).None? ==> urls == payment.webhooks)
      else t.rows == s.rows && t.marks == s.marks
  {
    hide Recorded, Sound, NextNumber, Tells, Read, Hooked;
    var held, news, t := Read(s, payment.id), AcceptedNews(s, payment, now), Taken(s, payment, dueAt, now);
    if held.None? { NobodyHooked(s, payment.id); } else { ReadCarriesEveryWebhook(s, payment.id); }
    NewsCarriesEveryWebhook(s, payment, now);
    NewsAsksForMore(s, payment, now);
    if news.Some? {
      WritesOne(s, news.value, now);
      var urls := news.value.payment.webhooks;
      assert news.value == Accepts(s, payment, urls, now);
      SameRowsTold(s, Recorded(s, news.value, 0, now), t, [Accepts(s, payment, urls, now)]);
    }
  }

  ghost function Accepts(s: State, payment: Payment, urls: seq<Url>, now: Time): Fact {
    AcceptedFact(
      s.self, OwnMark(s, Accepted) + 1, payment.id, payment.(webhooks := urls), now, payment.expiresAt)
  }

  lemma NobodyHooked(s: State, id: Id)
    requires Read(s, id).None?
    ensures forall url :: !Hooked(s, id, url)
  {
    NobodyReadNobodyAccepted(s, id);
  }

  lemma NewsAsksForMore(s: State, payment: Payment, now: Time)
    ensures var held := Read(s, payment.id);
      var more := held.Some? && exists url :: url in payment.webhooks && url !in held.value.webhooks;
      AcceptedNews(s, payment, now).Some? <==> held.None? || more
  {
    hide Read, NextNumber;
    var held := Read(s, payment.id);
    if held.Some? {
      var without := Without(payment.webhooks, held.value.webhooks);
      WithoutKeepsTheRest(payment.webhooks, held.value.webhooks);
      if without != [] { assert without[0] in without; }
    }
  }

  /** A payment nobody had accepted reads back as it was taken on. */
  lemma TakenReadsBack(s: State, payment: Payment, dueAt: Time, now: Time)
    requires Sound(s) && Read(s, payment.id).None?
    ensures Read(Taken(s, payment, dueAt, now), payment.id) == Some(payment)
  {
    hide Recorded, Sound, NextNumber, Read;
    var fact := AcceptedNews(s, payment, now).value;
    var t := Taken(s, payment, dueAt, now);
    RecordedStaysSound(s, fact, 0, now);
    NobodyReadNobodyAccepted(s, payment.id);
    assert t.rows == s.rows[fact.Name() := fact];
    ReadsTheOnlyRow(t, fact.Name());
    assert payment.(webhooks := payment.webhooks) == payment;
  }

  lemma NobodyReadNobodyAccepted(s: State, id: Id)
    requires Read(s, id).None?
    ensures forall k :: k in s.rows && s.rows[k].AcceptedFact? ==> s.rows[k].id != id
  {
    var keys := set k | k in s.rows && s.rows[k].AcceptedFact? && s.rows[k].id == id;
    assert |Sorted(keys)| == |AcceptedRows(s, id)| == 0;
    forall k | k in s.rows && s.rows[k].AcceptedFact? ensures s.rows[k].id != id {
      assert k in keys <==> k in Sorted(keys);
    }
  }

  /**
   Taking a payment on watches it, due when asked and not yet announced, unless it is settled or is
   watched already; whatever is watched stays as it is.
   */
  lemma TakingWatches(s: State, payment: Payment, dueAt: Time, now: Time, id: Id)
    requires Sound(s)
    ensures var t := Taken(s, payment, dueAt, now);
      && (id in t.schedule <==> id in s.schedule || (id == payment.id && !s.Settled(id)))
      && (id in s.schedule ==> t.schedule[id] == s.schedule[id])
      && (id in t.schedule && id !in s.schedule ==>
        t.schedule[id] == Watch(Read(s, id).Or(payment).expiresAt, Some(dueAt), false))
  {
    hide Recorded, Sound, NextNumber, Tells, Read;
    var news := AcceptedNews(s, payment, now);
    if news.Some? { WritesOne(s, news.value, now); NoSettlementTold(s, Recorded(s, news.value, 0, now), news.value); }
  }

  lemma NoSettlementTold(s: State, t: State, fact: Fact)
    requires Tells(s, t, [fact]) && !fact.PaidFact?
    ensures forall id :: t.Settled(id) <==> s.Settled(id)
  {
    forall k | k in s.rows ensures t.rows[k] == s.rows[k] {}
    forall id | t.Settled(id) ensures s.Settled(id) {
      var k :| k in t.rows && t.rows[k].PaidFact? && t.rows[k].id == id;
      assert k in s.rows;
    }
    forall id | s.Settled(id) ensures t.Settled(id) {
      var k :| k in s.rows && s.rows[k].PaidFact? && s.rows[k].id == id;
      assert k in t.rows;
    }
  }
}
