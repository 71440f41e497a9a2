/**
 Facts are a set: the order they arrive in, how they are batched and how often they are repeated
 change nothing.
 */
module OrderFree {
  import opened Options
  import opened Facts
  import opened LedgerState
  import opened Replication
  import opened Worklist

  /** A push: facts that come without a word on how far they reach. */
  datatype Hearing = Hearing(facts: seq<Fact>, standby: Fact -> Time, now: Time)

  ghost function AbsorbedEach(rules: Rules, s: State, heard: seq<Hearing>): State
    decreases |heard|
  {
    if heard == [] then s
    else AbsorbedEach(rules, Absorbed(rules, s, heard[0].facts, None, heard[0].standby, heard[0].now), heard[1..])
  }

  ghost function FactsOf(heard: seq<Hearing>): set<Fact> {
    if heard == [] then {} else (set f | f in heard[0].facts) + FactsOf(heard[1..])
  }

  /** Every number up to a mark is held, as it is where nobody swept. */
  ghost predicate Dense(s: State) {
    forall slot, n :: 1 <= n <= MarkIn(s.marks, slot) ==> Key(slot, n) in s.rows
  }

  ghost predicate Unswept(s: State) {
    Filed(s) && Closed(s) && Dense(s) && Watchful(s) && Consistent(s) && Complete(s)
  }

  /** All rows and facts are as their origins issued them, and all would be accepted. */
  ghost predicate Truthful(rules: Rules, issued: map<Key, Fact>, s: State, facts: set<Fact>) {
    && (forall k :: k in s.rows ==> k in issued && issued[k] == s.rows[k])
    && (forall f :: f in facts ==> f.Name() in issued && issued[f.Name()] == f && f.number >= 1 && Proven(rules, f))
  }

  ghost function Names(facts: set<Fact>): set<Key> {
    set f | f in facts :: f.Name()
  }

  lemma AbsorbedAdds(rules: Rules, issued: map<Key, Fact>, s: State, h: Hearing)
    requires Unswept(s) && Truthful(rules, issued, s, set f | f in h.facts)
    ensures var t := Absorbed(rules, s, h.facts, None, h.standby, h.now);
      && t.rows.Keys == s.rows.Keys + Names(set f | f in h.facts)
      && (forall k :: k in t.rows ==> k in issued && issued[k] == t.rows[k])
      && Unswept(t)
  {
    hide Absorbed, Filed, Watchful, Consistent, Complete;
    var t := Absorbed(rules, s, h.facts, None, h.standby, h.now);
    AbsorbedEffect(rules, s, h.facts, None, h.standby, h.now);
    AbsorbedKeeps(rules, s, h.facts, None, h.standby, h.now);
    var facts := set f | f in h.facts;
    forall f | f in facts ensures f.Name() in t.rows {
      assert f.Name() == Key(f.Lane(), f.number);
    }
    forall k | k in t.rows && k !in s.rows ensures k in Names(facts) {
      assert t.rows[k] in facts;
    }
    forall slot, n | 1 <= n <= MarkIn(t.marks, slot) ensures Key(slot, n) in t.rows {
      if n <= MarkIn(s.marks, slot) { assert Key(slot, n) in s.rows; }
    }
    ClosedAfterPush(s, t);
  }

  lemma ClosedAfterPush(s: State, t: State)
    requires Closed(s) && AbsorbsMarks(s, t, None)
    ensures Closed(t)
  {
  }

  lemma {:induction false} AbsorbedEachAdds(rules: Rules, issued: map<Key, Fact>, s: State, heard: seq<Hearing>)
    requires Unswept(s) && Truthful(rules, issued, s, FactsOf(heard))
    ensures var t := AbsorbedEach(rules, s, heard);
      && t.rows.Keys == s.rows.Keys + Names(FactsOf(heard))
      && (forall k :: k in t.rows ==> k in issued && issued[k] == t.rows[k])
      && Unswept(t)
    decreases |heard|
  {
    hide Absorbed, Unswept, Proven;
    if heard != [] {
      var h := heard[0];
      var first := set f | f in h.facts;
      assert forall f :: f in first ==> f in FactsOf(heard);
      AbsorbedAdds(rules, issued, s, h);
      var u := Absorbed(rules, s, h.facts, None, h.standby, h.now);
      assert forall f :: f in FactsOf(heard[1..]) ==> f in FactsOf(heard);
      AbsorbedEachAdds(rules, issued, u, heard[1..]);
      assert FactsOf(heard) == first + FactsOf(heard[1..]);
    }
  }

  /** Where every number up to the mark is held and the next is not, the rows tell the mark. */
  lemma RowsTellMarks(s: State, t: State, slot: Slot)
    requires Dense(s) && Closed(s) && Dense(t) && Closed(t) && s.rows.Keys == t.rows.Keys
    ensures MarkIn(s.marks, slot) == MarkIn(t.marks, slot)
  {
    assert Above(s.marks, slot) == Key(slot, MarkIn(s.marks, slot) + 1) && Above(s.marks, slot) !in s.rows;
    assert Above(t.marks, slot) == Key(slot, MarkIn(t.marks, slot) + 1) && Above(t.marks, slot) !in t.rows;
  }

  /** What is watched is what was accepted and is not settled. */
  lemma RowsTellWorklist(s: State)
    requires Watchful(s) && Complete(s)
    ensures s.schedule.Keys == (set p | p in AcceptedPairs(s.rows) :: p.0) - PaidIds(s.rows)
  {
    forall id | id in s.schedule ensures id in (set p | p in AcceptedPairs(s.rows) :: p.0) {
      assert (id, s.schedule[id].expiresAt) in AcceptedPairs(s.rows);
    }
  }

  /**
   The theorem: two ways of hearing the same set of facts leave the same tables, the same marks, the
   same payments watched, and every payment reading the same, webhooks and all. Each mark is the end
   of the longest run of numbers held from 1 on.
   */
  lemma OrderMakesNoDifference(
    rules: Rules, issued: map<Key, Fact>, s: State, one: seq<Hearing>, other: seq<Hearing>)
    requires Unswept(s) && Truthful(rules, issued, s, FactsOf(one)) && FactsOf(one) == FactsOf(other)
    ensures var t, u := AbsorbedEach(rules, s, one), AbsorbedEach(rules, s, other);
      && t.rows == u.rows && Dense(t) && Closed(t)
      && (forall slot :: MarkIn(t.marks, slot) == MarkIn(u.marks, slot))
      && t.schedule.Keys == u.schedule.Keys
      && (forall id :: Read(t, id) == Read(u, id))
  {
    hide AbsorbedEach, Truthful, Watchful, Complete, Consistent, Filed, Closed, Dense;
    AbsorbedEachAdds(rules, issued, s, one);
    AbsorbedEachAdds(rules, issued, s, other);
    var t, u := AbsorbedEach(rules, s, one), AbsorbedEach(rules, s, other);
    assert t.rows == u.rows;
    forall slot ensures MarkIn(t.marks, slot) == MarkIn(u.marks, slot) {
      RowsTellMarks(t, u, slot);
    }
    RowsTellWorklist(t);
    RowsTellWorklist(u);
  }

  // ---------------------------------------------------------------- webhooks

  ghost predicate Distinct(urls: seq<Url>) {
    forall i, j :: 0 <= i < j < |urls| ==> urls[i] != urls[j]
  }

  lemma {:induction false} WithoutKeepsTheRest(added: seq<Url>, known: seq<Url>)
    ensures forall url :: url in Without(added, known) <==> url in added && url !in known
    ensures Distinct(added) ==> Distinct(Without(added, known))
  {
    if added != [] {
      var rest := Without(added[1..], known);
      WithoutKeepsTheRest(added[1..], known);
      assert added == [added[0]] + added[1..];
      if Distinct(added) {
        assert Distinct(added[1..]) by {
          assert forall i :: 0 <= i < |added[1..]| ==> added[1..][i] == added[i + 1];
        }
        assert added[0] !in added[1..];
      }
    }
  }

  /** Merging neither loses a webhook nor lists one twice. */
  lemma MergedIsUnion(known: seq<Url>, added: seq<Url>)
    ensures forall url :: url in MergedWebhooks(known, added) <==> url in known || url in added
    ensures Distinct(known) && Distinct(added) ==> Distinct(MergedWebhooks(known, added))
  {
    WithoutKeepsTheRest(added, known);
    if Distinct(known) && Distinct(added) {
      var merged := MergedWebhooks(known, added);
      forall i, j | 0 <= i < j < |merged| ensures merged[i] != merged[j] {
        if i < |known| <= j { assert merged[j] in Without(added, known); }
      }
    }
  }

  ghost predicate InSome(payments: seq<Payment>, url: Url) {
    exists i :: 0 <= i < |payments| && url in payments[i].webhooks
  }

  lemma {:induction false} MergedAllIsUnion(one: Payment, others: seq<Payment>)
    ensures forall url :: url in OneFromEvery(one, others).webhooks <==> url in one.webhooks || InSome(others, url)
    ensures Distinct(one.webhooks) && (forall i :: 0 <= i < |others| ==> Distinct(others[i].webhooks))
      ==> Distinct(OneFromEvery(one, others).webhooks)
    decreases |others|
  {
    if others != [] {
      var next := one.(webhooks := MergedWebhooks(one.webhooks, others[0].webhooks));
      MergedIsUnion(one.webhooks, others[0].webhooks);
      MergedAllIsUnion(next, others[1..]);
      assert forall i :: 0 <= i < |others[1..]| ==> others[1..][i] == others[i + 1];
      assert forall i :: 1 <= i < |others| ==> others[i] == others[1..][i - 1];
    }
  }

  ghost predicate Hooked(s: State, id: Id, url: Url) {
    exists k :: k in s.rows && s.rows[k].AcceptedFact? && s.rows[k].id == id && url in s.rows[k].payment.webhooks
  }

  /**
   A payment read back carries exactly the webhooks its accepted rows carry, each once if no row
   repeats one.
   */
  lemma ReadCarriesEveryWebhook(s: State, id: Id)
    requires Read(s, id).Some?
    ensures forall url :: url in Read(s, id).value.webhooks <==> Hooked(s, id, url)
    ensures (forall k ::
      k in s.rows && s.rows[k].AcceptedFact? && s.rows[k].id == id ==> Distinct(s.rows[k].payment.webhooks))
      ==> Distinct(Read(s, id).value.webhooks)
  {
    var keys := set k | k in s.rows && s.rows[k].AcceptedFact? && s.rows[k].id == id;
    var sorted, rows := Sorted(keys), AcceptedRows(s, id);
    assert forall i :: 0 <= i < |rows| ==> sorted[i] in keys && rows[i] == s.rows[sorted[i]].payment;
    MergedAllIsUnion(rows[0], rows[1..]);
    assert forall i :: 0 <= i < |rows[1..]| ==> rows[1..][i] == rows[i + 1];
    forall url | Hooked(s, id, url) ensures url in Read(s, id).value.webhooks {
      var k :| k in keys && url in s.rows[k].payment.webhooks;
      var i :| 0 <= i < |sorted| && sorted[i] == k;
      if i > 0 { assert url in rows[1..][i - 1].webhooks; }
    }
  }

  // ---------------------------------------------------------------- taking a payment on

  lemma {:induction false} NothingWithout(added: seq<Url>, known: seq<Url>)
    requires Without(added, known) == []
    ensures forall url :: url in added ==> url in known
  {
    if added != [] {
      NothingWithout(added[1..], known);
      assert added == [added[0]] + added[1..];
    }
  }

  /** The webhooks `accept` finds are those held and those asked for; if it has nothing to write, all were held. */
  lemma NewsCarriesEveryWebhook(s: State, payment: Payment, now: Time)
    ensures var held, news := Read(s, payment.id), AcceptedNews(s, payment, now);
      && (news.Some? ==> news.value.id == payment.id && forall url ::
           (url in news.value.payment.webhooks <==>
             url in payment.webhooks || (held.Some? && url in held.value.webhooks)))
      && (news.None? ==> held.Some? && forall url :: url in payment.webhooks ==> url in held.value.webhooks)
  {
    hide Read, NextNumber;
    var held := Read(s, payment.id);
    if held.Some? {
      MergedIsUnion(held.value.webhooks, payment.webhooks);
      if |MergedWebhooks(held.value.webhooks, payment.webhooks)| <= |held.value.webhooks| {
        assert Without(payment.webhooks, held.value.webhooks) == [];
        NothingWithout(payment.webhooks, held.value.webhooks);
      }
    }
  }

  lemma HookedAfterOne(s: State, t: State, fact: Fact, id: Id, url: Url)
    requires fact.Name() !in s.rows && t.rows == s.rows[fact.Name() := fact] && fact.AcceptedFact? && fact.id == id
    ensures Hooked(t, id, url) <==> Hooked(s, id, url) || url in fact.payment.webhooks
  {
    if Hooked(s, id, url) {
      var k :| k in s.rows && s.rows[k].AcceptedFact? && s.rows[k].id == id && url in s.rows[k].payment.webhooks;
      assert t.rows[k] == s.rows[k];
    }
    assert t.rows[fact.Name()] == fact;
  }

  /** Taking a payment on again loses no webhook it had and gains exactly those newly asked for. */
  lemma TakenCarriesEveryWebhook(s: State, payment: Payment, dueAt: Time, now: Time, url: Url)
    requires Sound(s)
    ensures Hooked(Taken(s, payment, dueAt, now), payment.id, url)
      <==> Hooked(s, payment.id, url) || url in payment.webhooks
  {
    hide Read, NextNumber, Recorded, Sound, Issues, Hooked, AcceptedNews;
    var held, news := Read(s, payment.id), AcceptedNews(s, payment, now);
    NewsCarriesEveryWebhook(s, payment, now);
    if held.Some? { ReadCarriesEveryWebhook(s, payment.id); }
    var r := s;
    if news.Some? {
      NewsIsNext(s, payment, now);
      RecordedStaysSound(s, news.value, 0, now);
      r := Recorded(s, news.value, 0, now);
      HookedAfterOne(s, r, news.value, payment.id, url);
    }
    SameRowsHooked(r, Taken(s, payment, dueAt, now), payment.id, url);
  }

  lemma NewsIsNext(s: State, payment: Payment, now: Time)
    requires AcceptedNews(s, payment, now).Some?
    ensures var fact := AcceptedNews(s, payment, now).value;
      fact.AcceptedFact? && fact.origin == s.self && fact.number == NextNumber(s, Accepted)
  {
  }

  lemma SameRowsHooked(s: State, t: State, id: Id, url: Url)
    requires t.rows == s.rows
    ensures Hooked(t, id, url) == Hooked(s, id, url)
  {
  }
}
