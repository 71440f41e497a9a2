/**
 What recording, absorbing and covering do to an instance's rows and marks, for any ledger:
 marks only grow, rows already held stay as they are, a new row always lies above the
 mark, and a mark moves only over rows that are there or that a peer vouched for.
 */
module Replication {
  import opened Options
  import opened Facts
  import opened LedgerState

  function Above(marks: Watermarks, slot: Slot): Key {
    Key(slot, MarkIn(marks, slot) + 1)
  }

  /** The row just above a mark is never held. */
  ghost predicate Closed(s: State) {
    forall slot {:trigger Above(s.marks, slot)} :: Above(s.marks, slot) !in s.rows
  }

  /** An instance's own numbers are used up to its own mark and not beyond. */
  ghost predicate OwnBelowMark(s: State) {
    forall k :: k in s.rows && k.slot.origin == s.self ==> 1 <= k.number <= MarkIn(s.marks, k.slot)
  }

  /** The worklist, and when a delivery is next due, are no part of what replicates. */
  ghost predicate SameFacts(s: State, t: State) {
    t.self == s.self && t.rows == s.rows && t.marks == s.marks && t.heard == s.heard && t.tries.Keys == s.tries.Keys
  }

  ghost predicate Sound(s: State) {
    Filed(s) && Closed(s) && OwnBelowMark(s)
  }

  /** `t` holds all `s` does, and whatever it holds besides lies above the marks of `s`. */
  ghost predicate Extends(s: State, t: State) {
    && t.self == s.self
    && (forall k :: k in s.rows ==> k in t.rows && t.rows[k] == s.rows[k])
    && (forall slot :: MarkIn(s.marks, slot) <= MarkIn(t.marks, slot))
    && (forall k :: k in t.rows && k !in s.rows ==> MarkIn(s.marks, k.slot) < k.number)
    && (forall slot, n :: MarkIn(s.marks, slot) < n <= MarkIn(t.marks, slot) ==> Key(slot, n) in t.rows)
    && (Closed(s) ==> Closed(t))
  }

  /** The numbers `t` has and `s` has not are this instance's own, and taken in turn. */
  ghost predicate Issues(s: State, t: State) {
    && Extends(s, t) && (Filed(s) ==> Filed(t))
    && (forall k :: k in t.rows && k !in s.rows ==> k.slot.origin == s.self)
    && (forall slot: Slot :: slot.origin != s.self ==> MarkIn(t.marks, slot) == MarkIn(s.marks, slot))
    && OwnBelowMark(t)
  }

  lemma ExtendsTransitive(s: State, t: State, u: State)
    requires Extends(s, t) && Extends(t, u)
    ensures Extends(s, u)
  {
    forall k | k in u.rows && k !in s.rows ensures MarkIn(s.marks, k.slot) < k.number {
      assert MarkIn(s.marks, k.slot) <= MarkIn(t.marks, k.slot);
    }
    forall slot, n | MarkIn(s.marks, slot) < n <= MarkIn(u.marks, slot) ensures Key(slot, n) in u.rows {
      if n <= MarkIn(t.marks, slot) { assert Key(slot, n) in t.rows; }
    }
  }

  lemma IssuesTransitive(s: State, t: State, u: State)
    requires Issues(s, t) && Issues(t, u)
    ensures Issues(s, u)
  {
    ExtendsTransitive(s, t, u);
  }

  lemma AdvancedMoves(s: State, slot: Slot)
    ensures var t := Advanced(s, slot);
      && t == s.(marks := t.marks)
      && MarkIn(s.marks, slot) <= MarkIn(t.marks, slot)
      && Above(t.marks, slot) !in s.rows
      && (forall n :: MarkIn(s.marks, slot) < n <= MarkIn(t.marks, slot) ==> Key(slot, n) in s.rows)
      && (forall other :: other != slot ==> MarkIn(t.marks, other) == MarkIn(s.marks, other))
  {
  }

  lemma RecordedFiles(s: State, fact: Fact, dueAt: Time, now: Time)
    requires fact.Name() !in s.rows
    ensures var t := Recorded(s, fact, dueAt, now);
      && t.self == s.self && t.schedule == s.schedule
      && t.rows == s.rows[fact.Name() := fact]
      && (Filed(s) ==> Filed(t))
  {
    var t := Recorded(s, fact, dueAt, now);
    var key := fact.Name();
    assert t.rows == s.rows[key := fact];
    assert key in t.tries <==> fact.OutboxFact? || key in s.tries;
    assert key in t.heard <==> fact.PaidFact? || key in s.heard;
  }

  lemma RecordedMoves(s: State, fact: Fact, dueAt: Time, now: Time)
    requires fact.Name() !in s.rows
    ensures var t := Recorded(s, fact, dueAt, now);
      && MarkIn(s.marks, fact.Lane()) <= MarkIn(t.marks, fact.Lane())
      && Above(t.marks, fact.Lane()) !in t.rows
      && (forall n ::
        MarkIn(s.marks, fact.Lane()) < n <= MarkIn(t.marks, fact.Lane()) ==> Key(fact.Lane(), n) in t.rows)
      && (forall other :: other != fact.Lane() ==> MarkIn(t.marks, other) == MarkIn(s.marks, other))
  {
    var t := Recorded(s, fact, dueAt, now);
    var filed := s.(rows := t.rows, heard := t.heard, tries := t.tries);
    AdvancedMoves(filed, fact.Lane());
    assert t == Advanced(filed, fact.Lane());
    assert forall slot :: MarkIn(filed.marks, slot) == MarkIn(s.marks, slot);
  }

  lemma RecordedExtends(s: State, fact: Fact, dueAt: Time, now: Time)
    requires fact.Name() !in s.rows && MarkIn(s.marks, fact.Lane()) < fact.number
    ensures Extends(s, Recorded(s, fact, dueAt, now))
  {
    var t := Recorded(s, fact, dueAt, now);
    RecordedFiles(s, fact, dueAt, now);
    RecordedMoves(s, fact, dueAt, now);
    var lane := fact.Lane();
    if Closed(s) {
      forall slot ensures Above(t.marks, slot) !in t.rows {
        if slot != lane { assert Above(s.marks, slot) !in s.rows; }
      }
    }
  }

  lemma NextNumberFollowsMark(s: State, table: Source)
    requires OwnBelowMark(s)
    ensures NextNumber(s, table) == MarkIn(s.marks, Slot(table, s.self)) + 1
  {
  }

  /** A fact written under the next number uses exactly that number. */
  lemma RecordedIssues(s: State, fact: Fact, dueAt: Time, now: Time)
    requires Sound(s)
    requires fact.origin == s.self && fact.number == NextNumber(s, fact.Table())
    ensures Issues(s, Recorded(s, fact, dueAt, now))
    ensures fact.Name() !in s.rows
    ensures fact.number == MarkIn(s.marks, fact.Lane()) + 1
    ensures Recorded(s, fact, dueAt, now).rows == s.rows[fact.Name() := fact]
    ensures Recorded(s, fact, dueAt, now).schedule == s.schedule
  {
    hide Recorded, Issues, Extends;
    NextNumberFollowsMark(s, fact.Table());
    assert fact.Lane() == Slot(fact.Table(), s.self);
    assert fact.Name() == Key(fact.Lane(), MarkIn(s.marks, fact.Lane()) + 1);
    RecordedFiles(s, fact, dueAt, now);
    RecordedMoves(s, fact, dueAt, now);
    RecordedExtends(s, fact, dueAt, now);
    NextIsIssued(s, Recorded(s, fact, dueAt, now), fact);
  }

  lemma NextIsIssued(s: State, t: State, fact: Fact)
    requires Extends(s, t) && OwnBelowMark(s) && (Filed(s) ==> Filed(t)) && t.self == s.self
    requires fact.origin == s.self && fact.number == MarkIn(s.marks, fact.Lane()) + 1
    requires t.rows == s.rows[fact.Name() := fact]
    requires Above(t.marks, fact.Lane()) !in t.rows
    requires forall other :: other != fact.Lane() ==> MarkIn(t.marks, other) == MarkIn(s.marks, other)
    requires MarkIn(s.marks, fact.Lane()) <= MarkIn(t.marks, fact.Lane())
    ensures Issues(s, t)
  {
    hide Extends, Filed;
    var lane := fact.Lane();
    assert fact.Name() == Key(lane, fact.number);
    assert Above(t.marks, lane) == Key(lane, MarkIn(t.marks, lane) + 1);
    forall k | k in t.rows && k.slot.origin == t.self ensures 1 <= k.number <= MarkIn(t.marks, k.slot) {
      if k != fact.Name() { assert k in s.rows; }
    }
  }

  // ---------------------------------------------------------------- absorbing

  /** Every row `t` has beyond `s` is a proven fact of the list. */
  ghost predicate BringsOnly(rules: Rules, s: State, t: State, facts: seq<Fact>) {
    forall k :: k in t.rows && k !in s.rows ==>
      t.rows[k] in facts && t.rows[k].Name() == k && Proven(rules, t.rows[k])
  }

  /** Every proven fact of the list above the marks of `s` is a row of `t`. */
  ghost predicate BringsAll(rules: Rules, s: State, t: State, facts: seq<Fact>) {
    forall f :: f in facts && Proven(rules, f) && MarkIn(s.marks, f.Lane()) < f.number ==> f.Name() in t.rows
  }

  /** What absorbing one fact does to rows and marks is what recording it does; the rest is the worklist's. */
  lemma LearnedIsRecorded(rules: Rules, s: State, fact: Fact, standby: Fact -> Time, now: Time)
    returns (r: State)
    ensures r
      == if s.Known(fact.Name()) || !Proven(rules, fact) then s else Recorded(s, fact, rules.takeoverAt(fact), now)
    ensures SameFacts(r, Learned(rules, s, fact, standby, now))
  {
    hide Recorded, State.Known, Proven;
    r := if s.Known(fact.Name()) || !Proven(rules, fact) then s else Recorded(s, fact, rules.takeoverAt(fact), now);
  }

  ghost predicate TakesOne(rules: Rules, s: State, t: State, fact: Fact) {
    && (t.rows == s.rows || (t.rows == s.rows[fact.Name() := fact] && fact.Name() !in s.rows && Proven(rules, fact)))
    && (Proven(rules, fact) ==> fact.number <= MarkIn(s.marks, fact.Lane()) || fact.Name() in t.rows)
  }

  lemma LearnedStep(rules: Rules, s: State, fact: Fact, standby: Fact -> Time, now: Time)
    ensures var t := Learned(rules, s, fact, standby, now);
      Extends(s, t) && (Filed(s) ==> Filed(t)) && TakesOne(rules, s, t, fact)
  {
    hide Recorded, Learned, Extends, Filed, Proven;
    var t := Learned(rules, s, fact, standby, now);
    var r := LearnedIsRecorded(rules, s, fact, standby, now);
    ExtendsReflexive(s);
    if !s.Known(fact.Name()) && Proven(rules, fact) {
      RecordedFiles(s, fact, rules.takeoverAt(fact), now);
      RecordedExtends(s, fact, rules.takeoverAt(fact), now);
    }
    WorklistAside(s, r, t);
  }

  lemma ExtendsReflexive(s: State)
    ensures Extends(s, s)
  {
  }

  lemma WorklistAside(s: State, r: State, t: State)
    requires Extends(s, r) && SameFacts(r, t)
    ensures Extends(s, t)
    ensures Filed(r) ==> Filed(t)
  {
  }

  lemma {:induction false} LearnedAllExtends(
    rules: Rules, s: State, facts: seq<Fact>, standby: Fact -> Time, now: Time)
    ensures Extends(s, LearnedAll(rules, s, facts, standby, now))
    ensures Filed(s) ==> Filed(LearnedAll(rules, s, facts, standby, now))
    decreases |facts|
  {
    hide Learned, Extends, Filed;
    ExtendsReflexive(s);
    if facts != [] {
      var t := Learned(rules, s, facts[0], standby, now);
      LearnedStep(rules, s, facts[0], standby, now);
      LearnedAllExtends(rules, t, facts[1..], standby, now);
      ExtendsTransitive(s, t, LearnedAll(rules, s, facts, standby, now));
    }
  }

  lemma {:induction false} LearnedAllBringsOnly(
    rules: Rules, s: State, facts: seq<Fact>, standby: Fact -> Time, now: Time)
    ensures BringsOnly(rules, s, LearnedAll(rules, s, facts, standby, now), facts)
    decreases |facts|
  {
    hide Learned, Extends, TakesOne;
    if facts != [] {
      var t := Learned(rules, s, facts[0], standby, now);
      LearnedStep(rules, s, facts[0], standby, now);
      LearnedAllExtends(rules, t, facts[1..], standby, now);
      LearnedAllBringsOnly(rules, t, facts[1..], standby, now);
      BringsOneMore(rules, s, t, LearnedAll(rules, s, facts, standby, now), facts);
    }
  }

  lemma BringsOneMore(rules: Rules, s: State, t: State, u: State, facts: seq<Fact>)
    requires facts != [] && TakesOne(rules, s, t, facts[0]) && Extends(t, u) && BringsOnly(rules, t, u, facts[1..])
    ensures BringsOnly(rules, s, u, facts)
  {
  }

  lemma {:induction false} LearnedAllBringsAll(
    rules: Rules, s: State, facts: seq<Fact>, standby: Fact -> Time, now: Time)
    ensures BringsAll(rules, s, LearnedAll(rules, s, facts, standby, now), facts)
    decreases |facts|
  {
    hide Learned;
    if facts != [] {
      var t := Learned(rules, s, facts[0], standby, now);
      var u := LearnedAll(rules, s, facts, standby, now);
      LearnedStep(rules, s, facts[0], standby, now);
      LearnedAllExtends(rules, t, facts[1..], standby, now);
      LearnedAllBringsAll(rules, t, facts[1..], standby, now);
      forall f | f in facts && Proven(rules, f) && MarkIn(s.marks, f.Lane()) < f.number ensures f.Name() in u.rows {
        assert f == facts[0] || f in facts[1..];
        assert f.Name() == Key(f.Lane(), f.number);
      }
    }
  }

  ghost predicate VouchedFor(self: Origin, k: Key, through: Option<Watermarks>) {
    through.Some? && k.slot.origin != self && k.slot in through.value && k.number <= through.value[k.slot]
  }

  ghost predicate Covers(s: State, t: State, through: Watermarks) {
    && t.self == s.self && t.rows == s.rows && t.heard == s.heard && t.tries == s.tries && t.schedule == s.schedule
    && (forall slot :: MarkIn(s.marks, slot) <= MarkIn(t.marks, slot))
    && (forall slot: Slot :: slot.origin == s.self ==> MarkIn(t.marks, slot) == MarkIn(s.marks, slot))
    && (forall slot: Slot :: slot in through && slot.origin != s.self ==> through[slot] <= MarkIn(t.marks, slot))
    && (forall slot, n :: MarkIn(s.marks, slot) < n <= MarkIn(t.marks, slot) ==>
      Key(slot, n) in s.rows || VouchedFor(s.self, Key(slot, n), Some(through)))
    && (Closed(s) ==> Closed(t))
  }

  /**
   Covering moves a mark over rows held and over what `through` vouches for, never in this instance's
   own lanes.
   */
  lemma CoveredMoves(s: State, through: Watermarks)
    ensures Covers(s, Covered(s, through), through)
  {
    var t := Covered(s, through);
    if Closed(s) {
      forall slot ensures Above(t.marks, slot) !in t.rows {
        assert Above(s.marks, slot) !in s.rows;
      }
    }
  }

  /** The rows a note leaves are those held before and proven ones it brought above the marks. */
  ghost predicate AbsorbsOnly(rules: Rules, s: State, t: State, facts: seq<Fact>) {
    && t.self == s.self
    && (forall k :: k in s.rows ==> k in t.rows && t.rows[k] == s.rows[k])
    && (forall k :: k in t.rows && k !in s.rows ==> MarkIn(s.marks, k.slot) < k.number)
    && BringsOnly(rules, s, t, facts)
  }

  /**
   The marks it leaves: never lower, as high as it vouches for, and over no number it does not
   account for.
   */
  ghost predicate AbsorbsMarks(s: State, t: State, through: Option<Watermarks>) {
    && (forall slot :: MarkIn(s.marks, slot) <= MarkIn(t.marks, slot))
    && (forall slot, n :: MarkIn(s.marks, slot) < n <= MarkIn(t.marks, slot) ==>
      Key(slot, n) in t.rows || VouchedFor(s.self, Key(slot, n), through))
    && (through.Some? ==> forall slot: Slot :: slot in through.value && slot.origin != s.self ==>
      through.value[slot] <= MarkIn(t.marks, slot))
    && (Closed(s) ==> Closed(t))
  }

  /**
   What one note does to an instance: no row goes, the rows it brings are proven ones from the
   note and above the mark, and a mark passes a number only where a row is held or `through`
   answers for it.
   */
  lemma AbsorbedEffect(
    rules: Rules, s: State, facts: seq<Fact>, through: Option<Watermarks>, standby: Fact -> Time, now: Time)
    ensures AbsorbsOnly(rules, s, Absorbed(rules, s, facts, through, standby, now), facts)
    ensures BringsAll(rules, s, Absorbed(rules, s, facts, through, standby, now), facts)
    ensures Filed(s) ==> Filed(Absorbed(rules, s, facts, through, standby, now))
    ensures AbsorbsMarks(s, Absorbed(rules, s, facts, through, standby, now), through)
  {
    hide LearnedAll, Extends, Covers, Covered, AbsorbsOnly, BringsAll, BringsOnly, AbsorbsMarks, Filed;
    var sorted := InOrder(facts);
    InOrderKeepsMembers(facts);
    LearnedAllExtends(rules, s, sorted, standby, now);
    LearnedAllBringsOnly(rules, s, sorted, standby, now);
    LearnedAllBringsAll(rules, s, sorted, standby, now);
    var t := LearnedAll(rules, s, sorted, standby, now);
    if through.Some? {
      CoveredMoves(t, through.value);
      CoveringMoves(s, t, Covered(t, through.value), through.value);
      CoveringFiles(rules, s, t, Covered(t, through.value), through.value, sorted, facts);
    } else {
      NotCovering(rules, s, t, sorted, facts);
    }
  }

  lemma CoveringMoves(s: State, t: State, u: State, through: Watermarks)
    requires Extends(s, t) && Covers(t, u, through)
    ensures AbsorbsMarks(s, u, Some(through))
  {
    forall slot, n | MarkIn(s.marks, slot) < n <= MarkIn(u.marks, slot)
      ensures Key(slot, n) in u.rows || VouchedFor(s.self, Key(slot, n), Some(through))
    {
      if n <= MarkIn(t.marks, slot) { assert Key(slot, n) in t.rows; }
    }
  }

  lemma CoveringFiles(
    rules: Rules, s: State, t: State, u: State, through: Watermarks, sorted: seq<Fact>, facts: seq<Fact>)
    requires Extends(s, t) && Covers(t, u, through)
    requires BringsOnly(rules, s, t, sorted) && BringsAll(rules, s, t, sorted)
    requires forall f :: f in sorted <==> f in facts
    ensures AbsorbsOnly(rules, s, u, facts) && BringsAll(rules, s, u, facts)
    ensures Filed(t) ==> Filed(u)
  {
    NotCovering(rules, s, t, sorted, facts);
  }

  lemma NotCovering(rules: Rules, s: State, t: State, sorted: seq<Fact>, facts: seq<Fact>)
    requires Extends(s, t)
    requires BringsOnly(rules, s, t, sorted) && BringsAll(rules, s, t, sorted)
    requires forall f :: f in sorted <==> f in facts
    ensures AbsorbsOnly(rules, s, t, facts) && BringsAll(rules, s, t, facts)
    ensures AbsorbsMarks(s, t, None)
  {
  }

  // ---------------------------------------------------------------- writing

  /** The facts told are the rows `t` has and `s` has not, no more and no fewer. */
  ghost predicate Tells(s: State, t: State, told: seq<Fact>) {
    && (forall k :: k in s.rows ==> k in t.rows && t.rows[k] == s.rows[k])
    && (forall f :: f in told ==> f.Name() !in s.rows && f.Name() in t.rows && t.rows[f.Name()] == f)
    && (forall k :: k in t.rows && k !in s.rows ==> t.rows[k] in told)
  }

  lemma IssuesKeepsSound(s: State, t: State)
    requires Sound(s) && Issues(s, t)
    ensures Sound(t)
  {
  }

  lemma RecordedStaysSound(s: State, fact: Fact, dueAt: Time, now: Time)
    requires Sound(s)
    requires fact.origin == s.self && fact.number == NextNumber(s, fact.Table())
    ensures Issues(s, Recorded(s, fact, dueAt, now)) && Sound(Recorded(s, fact, dueAt, now))
    ensures Recorded(s, fact, dueAt, now).rows == s.rows[fact.Name() := fact]
    ensures Recorded(s, fact, dueAt, now).schedule == s.schedule
    ensures fact.Name() !in s.rows
  {
    hide Recorded, Issues, Sound;
    RecordedIssues(s, fact, dueAt, now);
    IssuesKeepsSound(s, Recorded(s, fact, dueAt, now));
  }

  lemma IssuesReflexive(s: State)
    requires Sound(s)
    ensures Issues(s, s)
  {
  }

  lemma WorklistIsLocal(s: State, t: State, u: State)
    requires Issues(s, t) && Sound(t) && SameFacts(t, u)
    ensures Issues(s, u) && Sound(u)
  {
  }

  lemma TakenIssues(s: State, payment: Payment, dueAt: Time, now: Time)
    requires Sound(s)
    ensures Issues(s, Taken(s, payment, dueAt, now)) && Sound(Taken(s, payment, dueAt, now))
  {
    hide Recorded, Issues, Sound, Read;
    var news := AcceptedNews(s, payment, now);
    IssuesReflexive(s);
    var t := if news.Some? then Recorded(s, news.value, 0, now) else s;
    if news.Some? { RecordedStaysSound(s, news.value, 0, now); }
    WorklistIsLocal(s, t, Taken(s, payment, dueAt, now));
  }

  lemma OwedIssues(s: State, id: Id, url: Url, body: Body, now: Time)
    requires Sound(s)
    ensures Issues(s, Owed(s, id, url, body, now)) && Sound(Owed(s, id, url, body, now))
    ensures Owed(s, id, url, body, now).schedule == s.schedule
  {
    hide Recorded, Issues, Sound, NextNumber;
    RecordedStaysSound(s, OutboxFact(s.self, NextNumber(s, Outbox), id, url, body, now), 0, now);
  }

  lemma {:induction false} OwedAllIssues(s: State, id: Id, urls: seq<Url>, body: Body, now: Time)
    requires Sound(s)
    ensures Issues(s, OwedAll(s, id, urls, body, now)) && Sound(OwedAll(s, id, urls, body, now))
    ensures OwedAll(s, id, urls, body, now).schedule == s.schedule
    decreases |urls|
  {
    hide Owed, Issues, Sound;
    IssuesReflexive(s);
    if urls != [] {
      var t := Owed(s, id, urls[0], body, now);
      OwedIssues(s, id, urls[0], body, now);
      OwedAllIssues(t, id, urls[1..], body, now);
      IssuesTransitive(s, t, OwedAll(s, id, urls, body, now));
    }
  }

  lemma OpenedIssues(s: State, watched: Payment, now: Time)
    requires Sound(s)
    ensures Issues(s, Opened(s, watched, now)) && Sound(Opened(s, watched, now))
  {
    hide Recorded, Issues, Sound, OwedAll, NextNumber;
    var record := watched.(webhooks := []);
    var fact := PaidFact(s.self, NextNumber(s, Paid), watched.id, record, now);
    var t := Recorded(s, fact, 0, now);
    RecordedStaysSound(s, fact, 0, now);
    OwedAllIssues(t, watched.id, watched.webhooks, Body(record, now), now);
    var u := OwedAll(t, watched.id, watched.webhooks, Body(record, now), now);
    IssuesTransitive(s, t, u);
    WorklistIsLocal(s, u, Opened(s, watched, now));
  }

  lemma LandedIssues(s: State, id: Id, url: Url, now: Time)
    requires Sound(s)
    ensures Issues(s, Landed(s, id, url, now)) && Sound(Landed(s, id, url, now))
  {
    hide Recorded, Issues, Sound, NextNumber;
    RecordedStaysSound(s, DeliveredFact(s.self, NextNumber(s, Delivered), id, url, now), 0, now);
  }

  lemma {:induction false} OwedEveryIssues(s: State, order: seq<Missing>, now: Time)
    requires Sound(s)
    ensures Issues(s, OwedEvery(s, order, now)) && Sound(OwedEvery(s, order, now))
    ensures OwedEvery(s, order, now).schedule == s.schedule
    decreases |order|
  {
    hide Owed, Issues, Sound, Settlement;
    IssuesReflexive(s);
    if order != [] {
      var t := OwedMissing(s, order[0], now);
      var settled := Settlement(s, order[0].id);
      if settled.Some? {
        OwedIssues(s, order[0].id, order[0].url, Body(settled.value, order[0].settledAt), now);
      }
      OwedEveryIssues(t, order[1..], now);
      IssuesTransitive(s, t, OwedEvery(s, order, now));
    }
  }

  /** The sweep's deletions touch no mark and change no row they leave. */
  ghost predicate Prunes(s: State, t: State) {
    && t.self == s.self && t.marks == s.marks
    && (forall k :: k in t.rows ==> k in s.rows && t.rows[k] == s.rows[k])
  }

  lemma PrunedPrunes(s: State, grace: nat, now: Time)
    requires Sound(s)
    ensures Prunes(s, Pruned(s, grace, now)) && Sound(Pruned(s, grace, now))
  {
    PrunedFiles(s, grace, now);
    FewerRowsSound(s, Pruned(s, grace, now));
  }

  lemma PrunedFiles(s: State, grace: nat, now: Time)
    requires Filed(s)
    ensures Prunes(s, Pruned(s, grace, now)) && Filed(Pruned(s, grace, now))
  {
    hide Outlived;
  }

  lemma FewerRowsSound(s: State, t: State)
    requires Sound(s) && Prunes(s, t) && Filed(t)
    ensures Sound(t)
  {
  }
}
