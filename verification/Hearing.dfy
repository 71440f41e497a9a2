/** What a note leaves beside the rows: when settlements were heard, and which payments are watched since. */
module Hearing {
  import opened Options
  import opened Facts
  import opened LedgerState
  import opened Replication

  /** New settlements were heard at `now`; those held before, when they were. */
  ghost predicate HeardNow(s: State, t: State, now: Time) {
    forall k :: k in t.heard ==> t.heard[k] == if k in s.heard then s.heard[k] else now
  }

  /** A watch this note began: of a payment it brought, due when the fact's turn is, with the expiry the fact names. */
  ghost predicate BegunBy(s: State, t: State, id: Id, f: Fact, standby: Fact -> Time)
    requires id in t.schedule
  {
    && f.AcceptedFact? && f.id == id && f.Name() in t.rows && t.rows[f.Name()] == f && f.Name() !in s.rows
    && t.schedule[id] == Watch(f.expiresAt, Some(standby(f)), false)
  }

  ghost predicate WatchesBegun(s: State, t: State, standby: Fact -> Time) {
    && (forall id :: id in t.schedule && id !in s.schedule ==> exists f :: BegunBy(s, t, id, f, standby))
    && (forall id :: id in t.schedule && id in s.schedule ==>
         t.schedule[id] == s.schedule[id] || exists f :: BegunBy(s, t, id, f, standby))
  }

  /** Every payment the note brought is settled or watched. */
  ghost predicate NewIsWatched(s: State, t: State) {
    forall k :: k in t.rows && k !in s.rows && t.rows[k].AcceptedFact? ==>
      t.Settled(t.rows[k].id) || t.rows[k].id in t.schedule
  }

  lemma RecordedHears(s: State, fact: Fact, dueAt: Time, now: Time)
    requires fact.Name() !in s.rows && Filed(s)
    ensures HeardNow(s, Recorded(s, fact, dueAt, now), now)
    ensures s.heard.Keys <= Recorded(s, fact, dueAt, now).heard.Keys
  {
  }

  lemma LearnedColumns(rules: Rules, s: State, fact: Fact, standby: Fact -> Time, now: Time)
    requires Filed(s)
    ensures Columns(s, Learned(rules, s, fact, standby, now), standby, now)
  {
    hide Proven, Recorded, Filed;
    NothingHeard(s, standby, now);
    if !s.Known(fact.Name()) && Proven(rules, fact) {
      var r, t := Recorded(s, fact, rules.takeoverAt(fact), now), Learned(rules, s, fact, standby, now);
      RecordedFiles(s, fact, rules.takeoverAt(fact), now);
      RecordedHears(s, fact, rules.takeoverAt(fact), now);
      assert t.rows == s.rows[fact.Name() := fact] && t.heard == r.heard;
      OneMore(s, r, t, fact, standby);
    }
  }

  lemma OneMore(s: State, r: State, t: State, fact: Fact, standby: Fact -> Time)
    requires fact.Name() !in s.rows && r.rows == s.rows[fact.Name() := fact] && r.schedule == s.schedule
    requires t == match fact
      case AcceptedFact(_, _, id, _, _, expiresAt) => Watching(r, id, expiresAt, standby(fact))
      case PaidFact(_, _, id, _, _) => Forgotten(r, id)
      case OutboxFact(_, _, _, _, _, _) => r
      case DeliveredFact(_, _, _, _, _) => r
    ensures WatchesBegun(s, t, standby) && NewIsWatched(s, t) && EndsSettled(s, t) && KeepsRows(s, t)
  {
    assert r.rows[fact.Name()] == fact;
    if fact.AcceptedFact? && fact.id in t.schedule && fact.id !in s.schedule {
      assert BegunBy(s, t, fact.id, fact, standby);
    }
    if fact.AcceptedFact? && r.Settled(fact.id) {
      var k :| k in r.rows && r.rows[k].PaidFact? && r.rows[k].id == fact.id;
      assert k in t.rows;
    }
  }

  ghost predicate EndsSettled(s: State, t: State) {
    forall id :: id in s.schedule && id !in t.schedule ==> t.Settled(id)
  }

  ghost predicate KeepsRows(s: State, t: State) {
    forall k :: k in s.rows ==> k in t.rows && t.rows[k] == s.rows[k]
  }

  ghost predicate Columns(s: State, t: State, standby: Fact -> Time, now: Time) {
    HeardNow(s, t, now) && WatchesBegun(s, t, standby) && NewIsWatched(s, t) && EndsSettled(s, t) && KeepsRows(s, t)
      && s.heard.Keys <= t.heard.Keys
  }

  lemma NothingHeard(s: State, standby: Fact -> Time, now: Time)
    ensures Columns(s, s, standby, now)
  {
  }

  lemma ColumnsAddUp(s: State, t: State, u: State, standby: Fact -> Time, now: Time)
    requires Columns(s, t, standby, now) && Columns(t, u, standby, now)
    ensures Columns(s, u, standby, now)
  {
    forall id | t.Settled(id) ensures u.Settled(id) {
      var k :| k in t.rows && t.rows[k].PaidFact? && t.rows[k].id == id;
      assert k in u.rows;
    }
    hide State.Settled;
    forall id | id in u.schedule && id !in s.schedule ensures exists f :: BegunBy(s, u, id, f, standby) {
      BegunSince(s, t, u, id, standby, now);
    }
    forall id | id in u.schedule && id in s.schedule
      ensures u.schedule[id] == s.schedule[id] || exists f :: BegunBy(s, u, id, f, standby)
    {
      BegunSince(s, t, u, id, standby, now);
    }
  }

  lemma BegunSince(s: State, t: State, u: State, id: Id, standby: Fact -> Time, now: Time)
    requires Columns(s, t, standby, now) && Columns(t, u, standby, now) && id in u.schedule
    ensures (id in s.schedule && u.schedule[id] == s.schedule[id]) || exists f :: BegunBy(s, u, id, f, standby)
  {
    hide State.Settled;
    if f :| BegunBy(t, u, id, f, standby) {
      assert BegunBy(s, u, id, f, standby);
    } else if id in t.schedule {
      assert u.schedule[id] == t.schedule[id];
      if f :| BegunBy(s, t, id, f, standby) { assert BegunBy(s, u, id, f, standby); }
    }
  }

  lemma {:induction false} LearnedAllColumns(
    rules: Rules, s: State, facts: seq<Fact>, standby: Fact -> Time, now: Time)
    requires Filed(s)
    ensures Columns(s, LearnedAll(rules, s, facts, standby, now), standby, now)
    decreases |facts|
  {
    hide Learned, Filed, Columns;
    NothingHeard(s, standby, now);
    if facts != [] {
      var t := Learned(rules, s, facts[0], standby, now);
      LearnedColumns(rules, s, facts[0], standby, now);
      LearnedStep(rules, s, facts[0], standby, now);
      LearnedAllColumns(rules, t, facts[1..], standby, now);
      ColumnsAddUp(s, t, LearnedAll(rules, s, facts, standby, now), standby, now);
    }
  }

  /**
   What a note leaves beside rows and marks: each new settlement was heard at this moment; each payment it
   brought is watched unless settled, with the expiry and the turn of a fact that brought it; a watch
   ends only by a settlement.
   */
  lemma NotesMoveColumns(
    rules: Rules, s: State, facts: seq<Fact>, through: Option<Watermarks>, standby: Fact -> Time, now: Time)
    requires Filed(s)
    ensures Columns(s, Absorbed(rules, s, facts, through, standby, now), standby, now)
  {
    hide LearnedAll, Filed, Covered;
    LearnedAllColumns(rules, s, InOrder(facts), standby, now);
    var t, u := LearnedAll(rules, s, InOrder(facts), standby, now), Absorbed(rules, s, facts, through, standby, now);
    assert u == t.(marks := u.marks);
    SameColumns(s, t, u, standby, now);
  }

  lemma SameColumns(s: State, t: State, u: State, standby: Fact -> Time, now: Time)
    requires Columns(s, t, standby, now) && u == t.(marks := u.marks)
    ensures Columns(s, u, standby, now)
  {
    forall id | t.Settled(id) ensures u.Settled(id) {
      var k :| k in t.rows && t.rows[k].PaidFact? && t.rows[k].id == id;
      assert k in u.rows;
    }
    hide State.Settled;
    forall id, f | id in t.schedule && BegunBy(s, t, id, f, standby) ensures BegunBy(s, u, id, f, standby) {}
  }
}
