/** Who tries a delivery when: the instance that owes it at once, everyone else only after a while. */
module Takeovers {
  import opened Options
  import opened Facts
  import opened LedgerState
  import opened Replication
  import opened Retries

  const TAKEOVER_SPREAD: nat := 8

  /** Round half up, as the source's rounding does. */
  function Rounded(x: nat, over: nat): nat
    requires over >= 1
  {
    (2 * x + over) / (2 * over)
  }

  /** The whole number nearest the quotient, the larger of two. */
  lemma RoundingIsNearest(x: nat, over: nat)
    requires over >= 1
    ensures (2 * Rounded(x, over) - 1) * over <= 2 * x < (2 * Rounded(x, over) + 1) * over
  {
    var r, rest := Rounded(x, over), (2 * x + over) % (2 * over);
    assert 2 * x + over == 2 * over * r + rest;
    assert (2 * r - 1) * over == 2 * over * r - over;
    assert (2 * r + 1) * over == 2 * over * r + over;
  }

  /** When an instance takes over a row another wrote; `digest` hashes the row and the instance. */
  function TakeoverAt(after: nat, digest: nat, owedAt: Time): Time {
    owedAt + after + Max(1, Rounded(after, TAKEOVER_SPREAD)) * (digest % TAKEOVER_SPREAD)
  }

  /** Nobody takes over before the time for it, and the last of them not much after twice that. */
  lemma TakeoversAreSpread(after: nat, digest: nat, other: nat, owedAt: Time)
    ensures owedAt + after <= TakeoverAt(after, digest, owedAt)
    ensures TakeoverAt(after, digest, owedAt) <= owedAt + after + 7 * Max(1, Rounded(after, TAKEOVER_SPREAD))
    ensures digest % TAKEOVER_SPREAD != other % TAKEOVER_SPREAD ==>
      || TakeoverAt(after, digest, owedAt) + Max(1, Rounded(after, TAKEOVER_SPREAD)) <= TakeoverAt(after, other, owedAt)
      || TakeoverAt(after, other, owedAt) + Max(1, Rounded(after, TAKEOVER_SPREAD)) <= TakeoverAt(after, digest, owedAt)
  {
    var gap := Max(1, Rounded(after, TAKEOVER_SPREAD));
    var a, b := digest % TAKEOVER_SPREAD, other % TAKEOVER_SPREAD;
    Spread(gap, a, 7);
    if a < b { Spread(gap, a + 1, b); } else if b < a { Spread(gap, b + 1, a); }
  }

  lemma Spread(gap: nat, a: nat, b: nat)
    requires a <= b
    ensures gap * a <= gap * b
  {
  }

  /** The rows `t` has and `s` has not are due at once, and fresh. */
  ghost predicate DueAtOnce(s: State, t: State) {
    && LosesNoTries(s, t)
    && forall k :: k in t.tries && k !in s.tries ==>
      t.tries[k].dueAt == Some(0) && t.tries[k].attempts == 0 && t.tries[k].parkedAt.None?
  }

  lemma RecordedTries(s: State, fact: Fact, dueAt: Time, now: Time)
    requires Filed(s)
    ensures var t := Recorded(s, fact, dueAt, now);
      && LosesNoTries(s, t)
      && forall k :: k in t.tries && k !in s.tries ==>
        && k in t.rows && t.rows[k] == fact
        && t.tries[k].dueAt == Some(dueAt) && t.tries[k].attempts == 0 && t.tries[k].parkedAt.None?
  {
    RecordedLosesNoTries(s, fact, dueAt, now);
  }

  lemma RecordedIsDueAtOnce(s: State, fact: Fact, now: Time)
    requires Filed(s)
    ensures DueAtOnce(s, Recorded(s, fact, 0, now))
  {
    hide Recorded;
    RecordedTries(s, fact, 0, now);
  }

  lemma DueAtOnceTransitive(s: State, t: State, u: State)
    requires DueAtOnce(s, t) && DueAtOnce(t, u)
    ensures DueAtOnce(s, u)
  {
  }

  lemma NothingNewIsDue(s: State)
    ensures DueAtOnce(s, s)
  {
  }

  lemma {:induction false} OwedAllIsDueAtOnce(s: State, id: Id, urls: seq<Url>, body: Body, now: Time)
    requires Sound(s)
    ensures DueAtOnce(s, OwedAll(s, id, urls, body, now))
    decreases |urls|
  {
    hide Recorded, Sound, Issues, NextNumber, DueAtOnce;
    NothingNewIsDue(s);
    if urls != [] {
      var t := Owed(s, id, urls[0], body, now);
      OwedIssues(s, id, urls[0], body, now);
      SoundFiles(s);
      RecordedIsDueAtOnce(s, OutboxFact(s.self, NextNumber(s, Outbox), id, urls[0], body, now), now);
      OwedAllIsDueAtOnce(t, id, urls[1..], body, now);
      DueAtOnceTransitive(s, t, OwedAll(s, id, urls, body, now));
    }
  }

  /** The instance that settles a payment owes its webhooks at once. */
  lemma SettlerTriesAtOnce(s: State, watched: Payment, now: Time)
    requires Sound(s)
    ensures DueAtOnce(s, Opened(s, watched, now))
  {
    hide Recorded, Sound, Issues, NextNumber, DueAtOnce, OwedAll;
    var record := watched.(webhooks := []);
    var fact := PaidFact(s.self, NextNumber(s, Paid), watched.id, record, now);
    var r := Recorded(s, fact, 0, now);
    var u := OwedAll(r, watched.id, watched.webhooks, Body(record, now), now);
    SoundFiles(s);
    RecordedStaysSound(s, fact, 0, now);
    RecordedIsDueAtOnce(s, fact, now);
    OwedAllIsDueAtOnce(r, watched.id, watched.webhooks, Body(record, now), now);
    DueAtOnceTransitive(s, r, u);
    SameTriesDue(s, u, Opened(s, watched, now));
  }

  lemma SameTriesDue(s: State, t: State, u: State)
    requires DueAtOnce(s, t) && u.tries == t.tries
    ensures DueAtOnce(s, u)
  {
  }

  lemma {:induction false} OwedEveryIsDueAtOnce(s: State, order: seq<Missing>, now: Time)
    requires Sound(s)
    ensures DueAtOnce(s, OwedEvery(s, order, now))
    decreases |order|
  {
    hide Recorded, Sound, Issues, NextNumber, DueAtOnce, Settlement;
    NothingNewIsDue(s);
    if order != [] {
      var settled := Settlement(s, order[0].id);
      if settled.Some? {
        var body := Body(settled.value, order[0].settledAt);
        OwedIssues(s, order[0].id, order[0].url, body, now);
        SoundFiles(s);
        RecordedIsDueAtOnce(s, OutboxFact(s.self, NextNumber(s, Outbox), order[0].id, order[0].url, body, now), now);
      }
      OwedEveryIsDueAtOnce(OwedMissing(s, order[0], now), order[1..], now);
      DueAtOnceTransitive(s, OwedMissing(s, order[0], now), OwedEvery(s, order, now));
    }
  }

  /** The outbox rows `t` has and `s` has not are due when this instance takes them over. */
  ghost predicate DueOnTakeover(rules: Rules, s: State, t: State) {
    && LosesNoTries(s, t)
    && forall k :: k in t.tries && k !in s.tries ==>
      && k in t.rows && t.tries[k].dueAt == Some(rules.takeoverAt(t.rows[k]))
      && t.tries[k].attempts == 0 && t.tries[k].parkedAt.None?
  }

  lemma LearnedIsDueOnTakeover(rules: Rules, s: State, fact: Fact, standby: Fact -> Time, now: Time)
    requires Filed(s)
    ensures DueOnTakeover(rules, s, Learned(rules, s, fact, standby, now))
  {
    hide Proven, Recorded, Filed, State.Known, State.Settled;
    RecordedTries(s, fact, rules.takeoverAt(fact), now);
  }

  lemma DueOnTakeoverTransitive(rules: Rules, s: State, t: State, u: State)
    requires DueOnTakeover(rules, s, t) && DueOnTakeover(rules, t, u) && Extends(t, u)
    ensures DueOnTakeover(rules, s, u)
  {
  }

  /** An instance that hears of a delivery tries it only once it is its turn to take it over. */
  lemma {:induction false} OthersWaitToTakeOver(
    rules: Rules, s: State, facts: seq<Fact>, standby: Fact -> Time, now: Time)
    requires Filed(s)
    ensures DueOnTakeover(rules, s, LearnedAll(rules, s, facts, standby, now))
    decreases |facts|
  {
    hide Learned, Filed, Extends, DueOnTakeover;
    if facts == [] {
      NothingTakenOver(rules, s);
    } else {
      var t := Learned(rules, s, facts[0], standby, now);
      LearnedIsDueOnTakeover(rules, s, facts[0], standby, now);
      LearnedStep(rules, s, facts[0], standby, now);
      OthersWaitToTakeOver(rules, t, facts[1..], standby, now);
      LearnedAllExtends(rules, t, facts[1..], standby, now);
      DueOnTakeoverTransitive(rules, s, t, LearnedAll(rules, s, facts, standby, now));
    }
  }

  lemma NothingTakenOver(rules: Rules, s: State)
    ensures DueOnTakeover(rules, s, s)
  {
  }
}
