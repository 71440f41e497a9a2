/** Hearing a note again changes nothing: a link may repeat itself. */
module Repeats {
  import opened Options
  import opened Facts
  import opened LedgerState
  import opened Replication

  ghost predicate NoNews(rules: Rules, s: State, facts: seq<Fact>) {
    forall f :: f in facts ==> s.Known(f.Name()) || !Proven(rules, f)
  }

  lemma {:induction false} NoNewsTeachesNothing(
    rules: Rules, s: State, facts: seq<Fact>, standby: Fact -> Time, now: Time)
    requires NoNews(rules, s, facts)
    ensures LearnedAll(rules, s, facts, standby, now) == s
    ensures Announced(rules, s, facts, standby, now) == []
    decreases |facts|
  {
    hide Proven, State.Known, Recorded;
    if facts != [] {
      assert facts[0] in facts;
      NoNewsTeachesNothing(rules, s, facts[1..], standby, now);
    }
  }

  /** Covering again with the same word moves nothing. */
  lemma CoveredAgain(s: State, through: Watermarks)
    ensures var t := Covered(s, through); Covered(t, through) == t
  {
    var t := Covered(s, through);
    var u := Covered(t, through);
    forall slot | slot in t.marks ensures slot in u.marks && u.marks[slot] == t.marks[slot] {
      if slot in through && slot.origin != s.self {
        assert t.marks[slot] == Frontier(s.rows.Keys, slot, Max(s.Mark(slot), through[slot]));
        assert u.marks[slot] == Frontier(s.rows.Keys, slot, Max(t.marks[slot], through[slot]));
        assert Key(slot, t.marks[slot] + 1) !in s.rows;
      }
    }
    assert u.marks == t.marks;
  }

  lemma HeardIsNoNews(
    rules: Rules, s: State, facts: seq<Fact>, through: Option<Watermarks>, standby: Fact -> Time, now: Time)
    ensures NoNews(rules, Absorbed(rules, s, facts, through, standby, now), InOrder(facts))
  {
    hide Absorbed, Filed, Proven, AbsorbsOnly;
    var t := Absorbed(rules, s, facts, through, standby, now);
    AbsorbedEffect(rules, s, facts, through, standby, now);
    InOrderKeepsMembers(facts);
    forall f | f in facts && Proven(rules, f) ensures t.Known(f.Name()) {
      if f.number <= MarkIn(s.marks, f.Lane()) {
        assert f.number <= MarkIn(t.marks, f.Lane());
      }
    }
  }

  /** A note heard twice leaves the ledger as a note heard once, and tells of each settlement once. */
  lemma HearingTwiceIsHearingOnce(
    rules: Rules, s: State, facts: seq<Fact>, through: Option<Watermarks>,
    standby: Fact -> Time, now: Time, standby': Fact -> Time, later: Time)
    ensures var t := Absorbed(rules, s, facts, through, standby, now);
      && Absorbed(rules, t, facts, through, standby', later) == t
      && Announced(rules, t, InOrder(facts), standby', later) == []
  {
    hide LearnedAll, Announced, NoNews, Covered;
    var t := Absorbed(rules, s, facts, through, standby, now);
    HeardIsNoNews(rules, s, facts, through, standby, now);
    NoNewsTeachesNothing(rules, t, InOrder(facts), standby', later);
    if through.Some? {
      CoveredAgain(LearnedAll(rules, s, InOrder(facts), standby, now), through.value);
    }
  }

  /** A settlement `t` holds and `s` does not. */
  ghost predicate NewlySettled(s: State, t: State, payment: Payment) {
    exists k :: k in t.rows && k !in s.rows && t.rows[k].PaidFact? && t.rows[k].payment == payment
  }

  lemma NewsOfOne(rules: Rules, s: State, fact: Fact, standby: Fact -> Time, now: Time)
    ensures var t := Learned(rules, s, fact, standby, now);
      forall payment :: NewlySettled(s, t, payment) <==>
        fact.PaidFact? && !s.Known(fact.Name()) && Proven(rules, fact) && payment == fact.payment
  {
    hide Recorded, Proven;
    var t := Learned(rules, s, fact, standby, now);
    if !s.Known(fact.Name()) && Proven(rules, fact) {
      RecordedFiles(s, fact, rules.takeoverAt(fact), now);
      assert t.rows == s.rows[fact.Name() := fact];
    }
  }

  lemma NewsAddsUp(s: State, t: State, u: State)
    requires Extends(s, t) && Extends(t, u)
    ensures forall payment ::
      NewlySettled(s, u, payment) <==> NewlySettled(s, t, payment) || NewlySettled(t, u, payment)
  {
    forall payment | NewlySettled(s, t, payment) ensures NewlySettled(s, u, payment) {
      var k :| k in t.rows && k !in s.rows && t.rows[k].PaidFact? && t.rows[k].payment == payment;
      assert k in u.rows && u.rows[k] == t.rows[k];
    }
    forall payment | NewlySettled(t, u, payment) ensures NewlySettled(s, u, payment) {
      var k :| k in u.rows && k !in t.rows && u.rows[k].PaidFact? && u.rows[k].payment == payment;
      assert k !in s.rows;
    }
  }

  /** What a note is reported to have settled is exactly what it brought the settlements of. */
  lemma {:induction false} AnnouncedIsNews(
    rules: Rules, s: State, facts: seq<Fact>, standby: Fact -> Time, now: Time)
    ensures var t, told := LearnedAll(rules, s, facts, standby, now), Announced(rules, s, facts, standby, now);
      forall payment :: payment in told <==> NewlySettled(s, t, payment)
    decreases |facts|
  {
    hide Learned, Proven, State.Known, NewlySettled, Extends;
    if facts == [] {
      NothingNew(s);
    } else {
      var t := Learned(rules, s, facts[0], standby, now);
      NewsOfOne(rules, s, facts[0], standby, now);
      LearnedStep(rules, s, facts[0], standby, now);
      LearnedAllExtends(rules, t, facts[1..], standby, now);
      AnnouncedIsNews(rules, t, facts[1..], standby, now);
      NewsAddsUp(s, t, LearnedAll(rules, t, facts[1..], standby, now));
    }
  }

  lemma NothingNew(s: State)
    ensures forall payment :: !NewlySettled(s, s, payment)
  {
  }
}
