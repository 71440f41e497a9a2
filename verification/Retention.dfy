/** How long a ledger keeps what it holds, and that no sweep sends a webhook that has landed again. */
module Retention {
  import opened Options
  import opened Facts
  import opened LedgerState
  import opened LedgerSteps
  import opened Replication
  import opened Clusters
  import opened ClusterSafety
  import opened Deliveries
  import opened Writing
  import R = Retries

  // ---------------------------------------------------------------- what a sweep keeps

  /** A tombstone for the webhook of an outbox row. */
  ghost predicate Answers(rows: map<Key, Fact>, d: Key, o: Key) {
    && d in rows && rows[d].DeliveredFact? && o in rows && rows[o].OutboxFact?
    && rows[d].id == rows[o].id && rows[d].url == rows[o].url
  }

  /** A webhook has landed as far as this ledger knows. */
  ghost predicate HasLanded(rows: map<Key, Fact>, o: Key) {
    exists d :: Answers(rows, d, o)
  }

  /** An accepted row goes once its payment has been over for the grace: expired, or settled by anyone. */
  lemma AcceptedKept(s: State, grace: nat, now: Time, k: Key)
    requires k in s.rows && s.rows[k].AcceptedFact?
    ensures var settledLately := forall p :: p in s.rows && s.rows[p].PaidFact? && s.rows[p].id == s.rows[k].id ==>
        now < s.rows[p].settledAt + grace;
      k in Pruned(s, grace, now).rows <==> now < s.rows[k].expiresAt + grace && settledLately
  {
  }

  /** A settlement goes once the grace is over and some settlement of its payment is beyond its replay. */
  lemma SettlementKept(s: State, grace: nat, now: Time, k: Key)
    requires k in s.rows && s.rows[k].PaidFact?
    ensures var replayed := forall p :: p in s.rows && s.rows[p].PaidFact? && s.rows[p].id == s.rows[k].id ==>
        Nth(s.rows, s.rows[p]) <= s.rows[p].payment.replay;
      k in Pruned(s, grace, now).rows <==> now < s.rows[k].settledAt + grace || replayed
  {
    hide Nth;
  }

  /**
   An outbox row goes the grace after it was parked, or, once a tombstone answers it, the grace after it
   was owed; one that is neither stays however old it is.
   */
  lemma OutboxKept(s: State, grace: nat, now: Time, k: Key)
    requires Filed(s) && k in s.rows && s.rows[k].OutboxFact?
    ensures var tries, row := s.tries[k], s.rows[k];
      var parkedLately := tries.dueAt.None? ==> now < tries.parkedAt.Or(row.owedAt) + grace;
      var owedLately := now < row.owedAt + grace;
      k in Pruned(s, grace, now).rows <==> parkedLately && (HasLanded(s.rows, k) ==> owedLately)
  {
    HasRowAnswers(s, k);
  }

  /** A tombstone goes the grace after it was written, and not before. */
  lemma TombstoneKept(s: State, grace: nat, now: Time, k: Key)
    requires k in s.rows && s.rows[k].DeliveredFact?
    ensures k in Pruned(s, grace, now).rows <==> now < s.rows[k].deliveredAt + grace
  {
  }

  /** A watch goes the grace after its expiry, and is announced from its expiry on. */
  lemma WatchKept(s: State, grace: nat, now: Time, id: Id)
    requires id in s.schedule
    ensures id in Pruned(s, grace, now).schedule <==> now < s.schedule[id].expiresAt + grace
    ensures id in Pruned(s, grace, now).schedule ==>
      var watch := Pruned(s, grace, now).schedule[id];
      && watch.announced == (s.schedule[id].announced || s.schedule[id].expiresAt <= now)
      && watch.dueAt == s.schedule[id].dueAt && watch.expiresAt == s.schedule[id].expiresAt
  {
    hide Late, Dropped;
  }

  /** The payments a sweep tells of are those whose watch it marks as announced, or ends unannounced. */
  lemma ExpiredAreTold(s: State, grace: nat, now: Time, id: Id)
    ensures var t := Pruned(s, grace, now);
      var told := id in s.schedule && !s.schedule[id].announced
        && (id !in t.schedule || t.schedule[id].announced);
      id in NewlyExpired(s.schedule, now) <==> told
  {
    hide Late, Dropped;
    if id in s.schedule { WatchKept(s, grace, now, id); }
  }

  lemma HasRowAnswers(s: State, o: Key)
    requires o in s.rows && s.rows[o].OutboxFact?
    ensures s.HasRow(Delivered, s.rows[o].id, s.rows[o].url) <==> exists d :: Answers(s.rows, d, o)
  {
    if s.HasRow(Delivered, s.rows[o].id, s.rows[o].url) {
      var d :| d in s.rows && s.rows[d].Table() == Delivered
        && s.rows[d].id == s.rows[o].id && s.rows[d].url == s.rows[o].url;
      assert Answers(s.rows, d, o);
    }
  }

  // ---------------------------------------------------------------- what has landed stays landed

  /** The exact condition: of the tombstones that answer a row that stays, one is within the grace. */
  lemma LandedStaysLanded(s: State, grace: nat, now: Time, o: Key)
    requires Filed(s) && HasLanded(s.rows, o) && o in Pruned(s, grace, now).rows
    ensures HasLanded(Pruned(s, grace, now).rows, o)
      <==> exists d :: Answers(s.rows, d, o) && now < s.rows[d].deliveredAt + grace
  {
    hide Pruned;
    var t := Pruned(s, grace, now);
    PrunedFiles(s, grace, now);
    forall d | Answers(s.rows, d, o) ensures d in t.rows <==> now < s.rows[d].deliveredAt + grace {
      TombstoneKept(s, grace, now, d);
    }
    if d :| Answers(s.rows, d, o) && now < s.rows[d].deliveredAt + grace {
      assert Answers(t.rows, d, o);
    }
    if HasLanded(t.rows, o) {
      var d :| Answers(t.rows, d, o);
      assert Answers(s.rows, d, o);
    }
  }

  /** So it holds of every webhook whose tombstone is no older than the row it answers. */
  lemma TombstonesOutliveRows(s: State, grace: nat, now: Time, o: Key, d: Key)
    requires Filed(s) && Answers(s.rows, d, o) && s.rows[o].owedAt <= s.rows[d].deliveredAt
    ensures o in Pruned(s, grace, now).rows ==> Answers(Pruned(s, grace, now).rows, d, o)
  {
    hide Pruned;
    if o in Pruned(s, grace, now).rows {
      PrunedFiles(s, grace, now);
      OutboxKept(s, grace, now, o);
      TombstoneKept(s, grace, now, d);
    }
  }

  /** On clocks that disagree a tombstone can be older than its row, and then the webhook is due again. */
  lemma SkewedTombstoneGoesFirst()
    ensures exists s: State, grace: nat, now: Time, o: Key ::
      Sound(s) && HasLanded(s.rows, o) && o in Pruned(s, grace, now).rows
      && !HasLanded(Pruned(s, grace, now).rows, o) && o in DueTries(Pruned(s, grace, now), now)
  {
    hide Pruned, Sound;
    var s, o, d := Skewed(), Key(Slot(Outbox, 0), 1), Key(Slot(Delivered, 1), 1);
    SkewedIsSound();
    assert Answers(s.rows, d, o);
    OutboxKept(s, 10, 25, o);
    assert forall e :: Answers(s.rows, e, o) ==> e == d;
    LandedStaysLanded(s, 10, 25, o);
    StaysDue(s, 10, 25, o);
  }

  /** Owed at 20 by the clock of one instance, landed at 10 by that of another. */
  ghost function Skewed(): State {
    var payment := Payment("x", 0, 9, "", None, 0, []);
    var o := OutboxFact(0, 1, "x", "u", Body(payment, 20), 20);
    var d := DeliveredFact(1, 1, "x", "u", 10);
    State(0, map[o.Name() := o, d.Name() := d], map[Slot(Outbox, 0) := 1, Slot(Delivered, 1) := 1],
      map[], map[], map[o.Name() := Tries(Some(20), 0, 3620, None)])
  }

  lemma SkewedIsSound()
    ensures Sound(Skewed())
  {
  }

  /** A sweep makes no row due or not due but by taking its tombstones. */
  lemma StaysDue(s: State, grace: nat, now: Time, o: Key)
    requires Filed(s) && o in s.rows && s.rows[o].OutboxFact? && o in Pruned(s, grace, now).rows
    ensures o in DueTries(Pruned(s, grace, now), now)
      <==> s.tries[o].dueAt.Some? && s.tries[o].dueAt.value <= now && !HasLanded(Pruned(s, grace, now).rows, o)
  {
    hide Pruned;
    PrunedFiles(s, grace, now);
    R.PrunedKeepsTries(s, grace, now);
    HasRowAnswers(Pruned(s, grace, now), o);
  }

  // ---------------------------------------------------------------- along a run

  ghost predicate HeldThroughout(trace: seq<Desk>, from: nat, later: nat, k: Key) {
    from <= later < |trace| && forall n :: from <= n <= later ==> k in trace[n].ledger.rows
  }

  lemma IssuesKeepsRow(s: State, t: State, k: Key)
    requires Issues(s, t) && k in s.rows
    ensures k in t.rows && t.rows[k] == s.rows[k]
  {
  }

  lemma AbsorbedKeepsRow(
    rules: Rules, s: State, facts: seq<Fact>, through: Option<Watermarks>, standby: Fact -> Time, now: Time, k: Key)
    requires k in s.rows
    ensures var t := Absorbed(rules, s, facts, through, standby, now); k in t.rows && t.rows[k] == s.rows[k]
  {
    hide Absorbed, BringsOnly, BringsAll, AbsorbsMarks;
    AbsorbedEffect(rules, s, facts, through, standby, now);
  }

  /** A step keeps a tombstone as long as it keeps the row, unless the tombstone is the older. */
  lemma StepKeepsAnswer(
    rules: Rules, d: Desk, step: LedgerStep, e: Desk, now: Time, backoff: nat, lease: nat, o: Key, k: Key)
    requires Sound(d.ledger) && Moves(rules, d, step, e, now, backoff, lease)
    requires Answers(d.ledger.rows, k, o) && d.ledger.rows[o].owedAt <= d.ledger.rows[k].deliveredAt
    requires o in e.ledger.rows
    ensures Answers(e.ledger.rows, k, o)
    ensures e.ledger.rows[o] == d.ledger.rows[o] && e.ledger.rows[k] == d.ledger.rows[k]
  {
    hide Sound, Issues, Absorbed, Pruned, OwedEvery, Inserted, Settling, Landed, State.HasRow;
    var s, t := d.ledger, e.ledger;
    match step
    case Lease(_) =>
    case Fail(_) =>
    case Poll =>
    case Hear(facts, through, standby) =>
      AbsorbedKeepsRow(rules, s, facts, through, standby, now, o);
      AbsorbedKeepsRow(rules, s, facts, through, standby, now, k);
    case Write(act) =>
      match act {
        case Insert(payment, dueAt, at) =>
          InsertedIssues(s, payment, dueAt, at);
          IssuesKeepsRow(s, t, o);
          IssuesKeepsRow(s, t, k);
        case Pay(id, opens, at) =>
          SettlingIssues(s, id, opens, at);
          IssuesKeepsRow(s, t, o);
          IssuesKeepsRow(s, t, k);
        case Deliver(id, url, at) =>
          LandedIssues(s, id, url, at);
          IssuesKeepsRow(s, t, o);
          IssuesKeepsRow(s, t, k);
        case Sweep(grace, order, at) => SweepKeepsAnswer(s, grace, order, at, o, k);
      }
  }

  lemma SweepKeepsAnswer(s: State, grace: nat, order: seq<Missing>, now: Time, o: Key, k: Key)
    requires Sound(s) && Answers(s.rows, k, o) && s.rows[o].owedAt <= s.rows[k].deliveredAt
    requires o in Swept(s, grace, order, now).rows
    ensures var t := Swept(s, grace, order, now);
      Answers(t.rows, k, o) && t.rows[o] == s.rows[o] && t.rows[k] == s.rows[k]
  {
    hide Sound, Issues, Pruned, OwedEvery, Prunes;
    var p, t := Pruned(s, grace, now), Swept(s, grace, order, now);
    PrunedPrunes(s, grace, now);
    OwedEveryIssues(p, order, now);
    NotWrittenAgain(s, p, t, o);
    SoundIsFiled(s);
    TombstonesOutliveRows(s, grace, now, o, k);
    IssuesKeepsRow(p, t, o);
    IssuesKeepsRow(p, t, k);
    PrunesKeepsRow(s, p, o);
    PrunesKeepsRow(s, p, k);
  }

  lemma PrunesKeepsRow(s: State, p: State, k: Key)
    requires Prunes(s, p) && k in p.rows
    ensures k in s.rows && p.rows[k] == s.rows[k]
  {
  }

  lemma SoundIsFiled(s: State)
    requires Sound(s)
    ensures Filed(s)
  {
  }

  /** What a sweep deletes its repairs do not write again: their numbers are new. */
  lemma NotWrittenAgain(s: State, p: State, t: State, o: Key)
    requires Sound(s) && Prunes(s, p) && Issues(p, t) && o in s.rows && o in t.rows
    ensures o in p.rows
  {
    assert MarkIn(s.marks, o.slot) == MarkIn(p.marks, o.slot);
  }

  /**
   The theorem, of runs of leases, failures, polls, writes, sweeps and notes, on any clocks: a webhook
   with a tombstone no older than its row is never leased again, for as long as the row is held.
   */
  lemma {:induction false} LandedIsNeverDueAgain(
    rules: Rules, trace: seq<Desk>, steps: seq<LedgerStep>, clock: seq<Time>, backoff: nat, lease: nat,
    from: nat, later: nat, o: Key, d: Key)
    requires LedgerRun(rules, trace, steps, clock, backoff, lease)
    requires HeldThroughout(trace, from, later, o) && Answers(trace[from].ledger.rows, d, o)
    requires trace[from].ledger.rows[o].owedAt <= trace[from].ledger.rows[d].deliveredAt
    ensures Answers(trace[later].ledger.rows, d, o)
    ensures trace[later].ledger.rows[o] == trace[from].ledger.rows[o]
    ensures trace[later].ledger.rows[d] == trace[from].ledger.rows[d]
    ensures later < |steps| && steps[later].Lease? ==> o !in steps[later].leased
    decreases later
  {
    hide Sound, Moves;
    if later > from {
      var n := later - 1;
      LandedIsNeverDueAgain(rules, trace, steps, clock, backoff, lease, from, n, o, d);
      LedgerStaysSound(rules, trace, steps, clock, backoff, lease, n);
      StepKeepsAnswer(rules, trace[n], steps[n], trace[later], clock[n], backoff, lease, o, d);
    }
    if later < |steps| && steps[later].Lease? {
      AnsweredIsNotLeased(rules, trace[later], steps[later], trace[later + 1], clock[later], backoff, lease, o, d);
    }
  }

  /** What starts it: landing a webhook answers every row owed for it by now with a tombstone of now. */
  lemma LandingAnswers(s: State, id: Id, url: Url, now: Time, o: Key)
    requires Sound(s) && o in s.rows && s.rows[o].OutboxFact? && s.rows[o].id == id && s.rows[o].url == url
    ensures var rows := Landed(s, id, url, now).rows;
      exists d :: Answers(rows, d, o) && rows[d].deliveredAt == now
  {
    hide Sound, Landed;
    LandingWrites(s, id, url, now);
    var d := DeliveredFact(s.self, OwnMark(s, Delivered) + 1, id, url, now);
    assert d in [d];
    assert Answers(Landed(s, id, url, now).rows, d.Name(), o);
  }

  lemma AnsweredIsNotLeased(
    rules: Rules, d: Desk, step: LedgerStep, e: Desk, now: Time, backoff: nat, lease: nat, o: Key, k: Key)
    requires Moves(rules, d, step, e, now, backoff, lease) && step.Lease? && Answers(d.ledger.rows, k, o)
    ensures o !in step.leased
  {
    hide Sound;
    HasRowAnswers(d.ledger, o);
    assert HasLanded(d.ledger.rows, o);
  }
}
