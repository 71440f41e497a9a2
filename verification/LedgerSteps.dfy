/** One turn of each loop of the ledger, as a fact about values. */
module LedgerSteps {
  import opened Options
  import opened Facts
  import opened LedgerState
  import opened Replication

  function NewlyExpired(schedule: map<Id, Watch>, now: Time): set<Id> {
    set id | id in schedule && schedule[id].expiresAt <= now && !schedule[id].announced
  }

  lemma NoneNewlyExpired(s: State, grace: nat, now: Time)
    ensures NewlyExpired(Pruned(s, grace, now).schedule, now) == {}
  {
    hide Outlived;
  }

  lemma {:induction false} OwedEverySchedule(s: State, order: seq<Missing>, now: Time)
    ensures OwedEvery(s, order, now).schedule == s.schedule
    decreases |order|
  {
    hide Settlement, NextNumber, RetryUntil;
    if order != [] { OwedEverySchedule(OwedMissing(s, order[0], now), order[1..], now); }
  }

  function DueTries(s: State, now: Time): set<Key> {
    set k | k in s.tries && s.tries[k].dueAt.Some? && s.tries[k].dueAt.value <= now
      && k in s.rows && s.rows[k].OutboxFact? && !s.HasRow(Delivered, s.rows[k].id, s.rows[k].url)
  }

  /** A reply as it stands while the lanes of `todo` are still to come. */
  ghost predicate AnsweredBut(s: State, theirs: Watermarks, reply: Reply, todo: set<Slot>) {
    && (forall slot :: slot in reply.through <==> Behind(s, theirs, slot) && slot !in todo)
    && (forall slot :: slot in reply.through ==> reply.through[slot] == Reaches(s, slot, MarkIn(theirs, slot)))
    && (reply.more <==> exists slot :: slot !in todo && Behind(s, theirs, slot) && Cut(s, slot, MarkIn(theirs, slot)))
    && (forall f :: f in reply.facts <==>
      exists slot :: slot !in todo && Behind(s, theirs, slot) && f in Batch(s, slot, MarkIn(theirs, slot)))
  }

  lemma NothingAnswered(s: State, theirs: Watermarks)
    ensures AnsweredBut(s, theirs, Reply([], false, map[]), s.marks.Keys)
  {
  }

  lemma AnswerStep(s: State, theirs: Watermarks, reply: Reply, todo: set<Slot>, slot: Slot)
    requires AnsweredBut(s, theirs, reply, todo) && slot in todo && slot in s.marks
    ensures var seen := MarkIn(theirs, slot);
      if seen < s.marks[slot] then
        AnsweredBut(s, theirs, Reply(reply.facts + Batch(s, slot, seen), reply.more || Cut(s, slot, seen),
          reply.through[slot := Reaches(s, slot, seen)]), todo - {slot})
      else AnsweredBut(s, theirs, reply, todo - {slot})
  {
    hide Batch, Cut, Reaches;
  }

  lemma AllAnswered(s: State, theirs: Watermarks, reply: Reply)
    requires AnsweredBut(s, theirs, reply, {})
    ensures IsReply(s, theirs, reply)
  {
    hide Batch, Cut, Reaches;
  }

  lemma TellsNothing(s: State)
    ensures Tells(s, s, [])
  {
  }

  lemma WritingTells(s: State, fact: Fact, dueAt: Time, now: Time)
    requires Sound(s) && fact.origin == s.self && fact.number == NextNumber(s, fact.Table())
    ensures Sound(Recorded(s, fact, dueAt, now)) && Tells(s, Recorded(s, fact, dueAt, now), [fact])
  {
    hide Recorded, Issues, Sound;
    RecordedStaysSound(s, fact, dueAt, now);
  }

  lemma TellsMore(s: State, t: State, u: State, told: seq<Fact>, more: seq<Fact>)
    requires Tells(s, t, told) && Tells(t, u, more)
    ensures Tells(s, u, told + more)
  {
  }

  lemma WatchingTells(s: State, t: State, u: State, told: seq<Fact>)
    requires Tells(s, t, told) && Sound(t)
    requires u.self == t.self && u.rows == t.rows && u.marks == t.marks && u.heard == t.heard && u.tries == t.tries
    ensures Tells(s, u, told) && Sound(u)
  {
  }

  lemma AllCovered(s: State, marks: Watermarks, through: Watermarks)
    requires CoveredBut(s, marks, through, {})
    ensures s.(marks := marks) == Covered(s, through)
  {
    assert marks == Covered(s, through).marks;
  }

  function DueWatches(schedule: map<Id, Watch>, now: Time): set<Id> {
    set id | id in schedule && schedule[id].dueAt.Some? && schedule[id].dueAt.value <= now
  }

  function WatchDueAt(schedule: map<Id, Watch>): Id -> Time {
    id => if id in schedule then schedule[id].dueAt.Or(0) else 0
  }

  function TryDueAt(tries: map<Key, Tries>): Key -> Time {
    k => if k in tries then tries[k].dueAt.Or(0) else 0
  }

  ghost predicate IsDue(schedule: map<Id, Watch>, id: Id, now: Time) {
    exists at: Time :: at <= now && id in schedule && schedule[id].dueAt == Some(at)
  }

  /** An outbox row whose time has come, of a webhook no tombstone says has landed. */
  ghost predicate Deliverable(s: State, o: Key, now: Time) {
    && o in s.rows && s.rows[o].OutboxFact?
    && o in s.tries && (exists at: Time :: at <= now && s.tries[o].dueAt == Some(at))
    && forall d :: d in s.rows && s.rows[d].DeliveredFact? ==>
         s.rows[d].id != s.rows[o].id || s.rows[d].url != s.rows[o].url
  }

  lemma DueIsDeliverable(s: State, now: Time)
    ensures forall k :: k in DueTries(s, now) <==> Deliverable(s, k, now)
  {
    forall k | k in DueTries(s, now) ensures Deliverable(s, k, now) {
      assert s.tries[k].dueAt == Some(s.tries[k].dueAt.value);
      forall d | d in s.rows && s.rows[d].DeliveredFact?
        ensures s.rows[d].id != s.rows[k].id || s.rows[d].url != s.rows[k].url
      {
        assert s.rows[d].Table() == Delivered;
      }
    }
  }
}
