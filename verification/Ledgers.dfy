/**
 The ledger itself: one instance's tables as fields its methods update in place, each method
 proved to leave the tables as the function of `LedgerState` it is named after says. The clock
 is read once a call and passed in.
 */
module Ledgers {
  import opened Options
  import opened Facts
  import opened LedgerState
  import opened LedgerSteps
  import opened Queries
  import opened Replication
  import opened Sweeping
  import opened Worklist

  class Ledger {
    const origin: Origin
    const rules: Rules
    var rows: map<Key, Fact>
    var marks: Watermarks
    var schedule: map<Id, Watch>
    var heard: map<Key, Time>
    var tries: map<Key, Tries>

    constructor (origin: Origin, rules: Rules)
      ensures this.origin == origin && this.rules == rules && Now() == Empty(origin)
    {
      this.origin, this.rules := origin, rules;
      rows, marks, schedule, heard, tries := map[], map[], map[], map[], map[];
    }

    function Now(): State
      reads this
    {
      State(origin, rows, marks, schedule, heard, tries)
    }

    function TimesDue(): set<Time>
      reads this
    {
      (set id | id in schedule && schedule[id].dueAt.Some? :: schedule[id].dueAt.value)
      + (set k | k in tries && tries[k].dueAt.Some? :: tries[k].dueAt.value)
    }

    // ---------------------------------------------------------------- marks

    /** Walk the mark up over every row that is there. */
    method Advance(slot: Slot)
      modifies `marks
      ensures Now() == Advanced(old(Now()), slot)
    {
      var mark := MarkIn(marks, slot);
      ghost var ahead := rows.Keys;
      while Key(slot, mark + 1) in rows
        invariant MarkIn(marks, slot) <= mark
        invariant forall n :: mark < n ==> (Key(slot, n) in ahead <==> Key(slot, n) in rows)
        invariant Frontier(ahead, slot, mark) == Frontier(rows.Keys, slot, MarkIn(marks, slot))
        decreases ahead
      {
        ahead := ahead - {Key(slot, mark + 1)};
        mark := mark + 1;
      }
      marks := marks[slot := Max(MarkIn(marks, slot), mark)];
    }

    method Cover(through: Watermarks)
      modifies `marks
      ensures Now() == Covered(old(Now()), through)
    {
      hide CoveredBut, Covered;
      var todo := through.Keys;
      NothingCovered(Now(), through);
      while todo != {}
        invariant todo <= through.Keys
        invariant CoveredBut(old(Now()), marks, through, todo)
        decreases |todo|
      {
        var slot :| slot in todo;
        CoverStep(old(Now()), marks, through, todo, slot);
        if slot.origin != origin { CoverOne(slot, through[slot]); }
        todo := todo - {slot};
      }
      AllCovered(old(Now()), marks, through);
    }

    method CoverOne(slot: Slot, number: nat)
      modifies `marks
      ensures marks == old(marks)[slot := Frontier(rows.Keys, slot, Max(MarkIn(old(marks), slot), number))]
    {
      marks := marks[slot := Max(MarkIn(marks, slot), number)];
      Advance(slot);
    }

    // ---------------------------------------------------------------- recording

    method RecordAccepted(fact: Fact, now: Time)
      requires fact.AcceptedFact?
      modifies `rows, `marks
      ensures Now() == Recorded(old(Now()), fact, 0, now)
    {
      if fact.Name() !in rows { rows := rows[fact.Name() := fact]; }
      Advance(fact.Lane());
    }

    method RecordPaid(fact: Fact, now: Time)
      requires fact.PaidFact?
      modifies `rows, `marks, `heard
      ensures Now() == Recorded(old(Now()), fact, 0, now)
    {
      if fact.Name() !in rows {
        rows, heard := rows[fact.Name() := fact], heard[fact.Name() := now];
      }
      Advance(fact.Lane());
    }

    method RecordOutbox(fact: Fact, dueAt: Time, now: Time)
      requires fact.OutboxFact?
      modifies `rows, `marks, `tries
      ensures Now() == Recorded(old(Now()), fact, dueAt, now)
    {
      if fact.Name() !in rows {
        var until := RetryUntil(Now(), fact.id, fact.owedAt);
        rows, tries := rows[fact.Name() := fact], tries[fact.Name() := Tries(Some(dueAt), 0, until, None)];
      }
      Advance(fact.Lane());
    }

    method RecordDelivered(fact: Fact, now: Time)
      requires fact.DeliveredFact?
      modifies `rows, `marks
      ensures Now() == Recorded(old(Now()), fact, 0, now)
    {
      if fact.Name() !in rows { rows := rows[fact.Name() := fact]; }
      Advance(fact.Lane());
    }

    // ---------------------------------------------------------------- absorbing and answering

    method Learn(fact: Fact, standby: Fact -> Time, now: Time) returns (settled: seq<Payment>)
      modifies this
      ensures Now() == Learned(rules, old(Now()), fact, standby, now)
      ensures settled ==
        if fact.PaidFact? && !old(Now()).Known(fact.Name()) && Proven(rules, fact) then [fact.payment] else []
    {
      settled := [];
      if Now().Known(fact.Name()) || !Proven(rules, fact) { return; }
      match fact
      case AcceptedFact(_, _, id, _, _, expiresAt) =>
        RecordAccepted(fact, now);
        ScheduleWatch(id, expiresAt, standby(fact));
      case PaidFact(_, _, id, payment, _) =>
        RecordPaid(fact, now);
        Forget(id);
        settled := [payment];
      case OutboxFact(_, _, _, _, _, _) =>
        RecordOutbox(fact, rules.takeoverAt(fact), now);
      case DeliveredFact(_, _, _, _, _) =>
        RecordDelivered(fact, now);
    }

    method Absorb(facts: seq<Fact>, through: Option<Watermarks>, standby: Fact -> Time, now: Time)
      returns (settled: seq<Payment>)
      modifies this
      ensures Now() == Absorbed(rules, old(Now()), facts, through, standby, now)
      ensures settled == Announced(rules, old(Now()), InOrder(facts), standby, now)
    {
      hide LearnedAll, Announced, Covered, InOrder;
      settled := LearnEach(InOrder(facts), standby, now);
      if through.Some? { Cover(through.value); }
    }

    method LearnEach(sorted: seq<Fact>, standby: Fact -> Time, now: Time) returns (settled: seq<Payment>)
      modifies this
      ensures Now() == LearnedAll(rules, old(Now()), sorted, standby, now)
      ensures settled == Announced(rules, old(Now()), sorted, standby, now)
    {
      hide Learned, State.Known, Proven;
      settled := [];
      var i := 0;
      while i < |sorted|
        invariant 0 <= i <= |sorted|
        invariant LearnedAll(rules, Now(), sorted[i..], standby, now)
          == LearnedAll(rules, old(Now()), sorted, standby, now)
        invariant settled + Announced(rules, Now(), sorted[i..], standby, now)
          == Announced(rules, old(Now()), sorted, standby, now)
      {
        assert sorted[i..][1..] == sorted[i + 1..];
        var news := Learn(sorted[i], standby, now);
        settled := settled + news;
        i := i + 1;
      }
    }

    /** Everything past the asker's marks, lane by lane, in batches of a bounded size. */
    method Since(theirs: Watermarks) returns (reply: Reply)
      ensures IsReply(Now(), theirs, reply)
    {
      hide Batch, AnsweredBut;
      reply := Reply([], false, map[]);
      var todo := marks.Keys;
      NothingAnswered(Now(), theirs);
      while todo != {}
        invariant todo <= marks.Keys
        invariant AnsweredBut(Now(), theirs, reply, todo)
        decreases |todo|
      {
        var slot :| slot in todo;
        var held, seen := marks[slot], MarkIn(theirs, slot);
        AnswerStep(Now(), theirs, reply, todo, slot);
        if seen < held {
          var batch := Batch(Now(), slot, seen);
          var cut := |batch| == GAP_BATCH;
          var reaches := if cut then batch[GAP_BATCH - 1].number else held;
          reply := Reply(reply.facts + batch, reply.more || cut, reply.through[slot := reaches]);
        }
        todo := todo - {slot};
      }
      AllAnswered(Now(), theirs, reply);
    }

    // ---------------------------------------------------------------- taking payments on and settling them

    /** The facts told are the rows written. */
    method Accept(payment: Payment, dueAt: Time, now: Time) returns (taken: Payment, told: seq<Fact>)
      modifies this
      ensures Now() == Taken(old(Now()), payment, dueAt, now)
      ensures var held := Read(old(Now()), payment.id);
        taken == held.Or(payment).(webhooks :=
          if held.Some? then MergedWebhooks(held.value.webhooks, payment.webhooks) else payment.webhooks)
      ensures Sound(old(Now())) ==> Sound(Now()) && Tells(old(Now()), Now(), told)
    {
      hide Read, NextNumber, Recorded, Sound, Tells;
      ghost var s := Now();
      var held := Read(Now(), payment.id);
      var webhooks := if held.Some? then MergedWebhooks(held.value.webhooks, payment.webhooks) else payment.webhooks;
      taken := held.Or(payment).(webhooks := webhooks);
      told := [];
      TellsNothing(s);
      if held.None? || |webhooks| > |held.value.webhooks| {
        var news := AcceptedFact(
          origin, NextNumber(Now(), Accepted), payment.id, payment.(webhooks := webhooks), now, payment.expiresAt);
        if Sound(s) { WritingTells(s, news, 0, now); }
        RecordAccepted(news, now);
        told := [news];
      }
      label recorded:
      ScheduleWatch(payment.id, taken.expiresAt, dueAt);
      if Sound(s) { WatchingTells(s, old@recorded(Now()), Now(), told); }
    }

    method Owe(id: Id, url: Url, body: Body, now: Time) returns (fact: Fact)
      modifies this
      ensures Now() == Owed(old(Now()), id, url, body, now)
      ensures Sound(old(Now())) ==> Sound(Now()) && Tells(old(Now()), Now(), [fact])
    {
      hide Recorded, Sound, Tells, NextNumber;
      fact := OutboxFact(origin, NextNumber(Now(), Outbox), id, url, body, now);
      if Sound(Now()) { WritingTells(Now(), fact, 0, now); }
      RecordOutbox(fact, 0, now);
    }

    method OweAll(id: Id, urls: seq<Url>, body: Body, now: Time) returns (told: seq<Fact>)
      modifies this
      ensures Now() == OwedAll(old(Now()), id, urls, body, now)
      ensures Sound(old(Now())) ==> Sound(Now()) && Tells(old(Now()), Now(), told)
    {
      hide Owed, Sound, Tells;
      told := [];
      TellsNothing(Now());
      var i := 0;
      while i < |urls|
        invariant 0 <= i <= |urls|
        invariant OwedAll(Now(), id, urls[i..], body, now) == OwedAll(old(Now()), id, urls, body, now)
        invariant Sound(old(Now())) ==> Sound(Now()) && Tells(old(Now()), Now(), told)
      {
        assert urls[i..][1..] == urls[i + 1..];
        ghost var t := Now();
        var fact := Owe(id, urls[i], body, now);
        if Sound(old(Now())) { TellsMore(old(Now()), t, Now(), told, [fact]); }
        told := told + [fact];
        i := i + 1;
      }
    }

    /**
     Refused unless the preimage opens the payment hash; otherwise one transaction settles, owes and
     forgets.
     */
    method Settle(watched: Payment, opens: bool, now: Time) returns (told: Option<seq<Fact>>)
      modifies this
      ensures told.Some? <==> opens
      ensures Now() == if opens then Opened(old(Now()), watched, now) else old(Now())
      ensures told.Some? && Sound(old(Now())) ==> Sound(Now()) && Tells(old(Now()), Now(), told.value)
    {
      hide Recorded, OwedAll, Sound, Tells, NextNumber;
      if !opens { return None; }
      ghost var s := Now();
      var record := watched.(webhooks := []);
      var paid := PaidFact(origin, NextNumber(Now(), Paid), watched.id, record, now);
      if Sound(s) { WritingTells(s, paid, 0, now); }
      RecordPaid(paid, now);
      label paid:
      var outbox := OweAll(watched.id, watched.webhooks, Body(record, now), now);
      label owed:
      Forget(watched.id);
      if Sound(s) {
        TellsMore(s, old@paid(Now()), old@owed(Now()), [paid], outbox);
        WatchingTells(s, old@owed(Now()), Now(), [paid] + outbox);
      }
      told := Some([paid] + outbox);
    }

    method Deliver(id: Id, url: Url, now: Time) returns (fact: Fact)
      modifies this
      ensures Now() == Landed(old(Now()), id, url, now)
      ensures Sound(old(Now())) ==> Sound(Now()) && Tells(old(Now()), Now(), [fact])
    {
      hide Recorded, Sound, Tells, NextNumber;
      fact := DeliveredFact(origin, NextNumber(Now(), Delivered), id, url, now);
      if Sound(Now()) { WritingTells(Now(), fact, 0, now); }
      RecordDelivered(fact, now);
    }

    // ---------------------------------------------------------------- the worklist

    method ScheduleWatch(id: Id, expiresAt: Time, dueAt: Time)
      modifies `schedule
      ensures Now() == Watching(old(Now()), id, expiresAt, dueAt)
    {
      if Now().Settled(id) { return; }
      if id !in schedule { schedule := schedule[id := Watch(expiresAt, Some(dueAt), false)]; }
    }

    method Forget(id: Id)
      modifies `schedule
      ensures Now() == Forgotten(old(Now()), id)
    {
      schedule := schedule - {id};
    }

    method Polled(id: Id, dueAt: Option<Time>)
      modifies `schedule
      ensures Rescheduled(old(Now()), Now())
      ensures forall other :: other in schedule ==>
        schedule[other].dueAt == if other == id then dueAt else old(schedule)[other].dueAt
    {
      if id in schedule { schedule := schedule[id := schedule[id].(dueAt := dueAt)]; }
    }

    method BroughtForward(id: Id, dueAt: Time)
      modifies `schedule
      ensures Rescheduled(old(Now()), Now())
      ensures forall other :: other in schedule ==>
        schedule[other].dueAt ==
          if other == id && old(schedule)[other].dueAt.Some?
          then Some(Min(old(schedule)[other].dueAt.value, dueAt)) else old(schedule)[other].dueAt
    {
      if id in schedule && schedule[id].dueAt.Some? {
        schedule := schedule[id := schedule[id].(dueAt := Some(Min(schedule[id].dueAt.value, dueAt)))];
      }
    }

    method PaymentsFor(ids: set<Id>) returns (payments: map<Id, Payment>)
      ensures ArePayments(Now(), ids, payments)
    {
      hide Read;
      payments := map[];
      var rest := ids;
      while rest != {}
        invariant rest <= ids
        invariant ArePayments(Now(), ids - rest, payments)
        decreases |rest|
      {
        var id :| id in rest;
        var held := Read(Now(), id);
        if held.Some? { payments := payments[id := held.value]; }
        rest := rest - {id};
      }
      assert ids - {} == ids;
    }

    /** Put off what is leased until the lease ends. */
    method Lease(leased: set<Id>, until: Time)
      requires leased <= schedule.Keys
      modifies `schedule
      ensures Rescheduled(old(Now()), Now())
      ensures forall id :: id in schedule ==>
        schedule[id].dueAt == if id in leased then Some(until) else old(schedule)[id].dueAt
    {
      var rest := leased;
      while rest != {}
        invariant rest <= leased && schedule.Keys == old(schedule).Keys
        invariant forall id :: id in schedule ==>
          (schedule[id] == if id in leased - rest then old(schedule)[id].(dueAt := Some(until)) else old(schedule)[id])
        decreases |rest|
      {
        var id :| id in rest;
        schedule := schedule[id := schedule[id].(dueAt := Some(until))];
        rest := rest - {id};
      }
    }

    /**
     Lease the `limit` payments longest due. What is leased is not due again before the lease
     ends, nothing due sooner is passed over, and as long as the worklist is sound a payment
     comes back for every lease.
     */
    method DuePolls(limit: nat, lease: nat, now: Time) returns (leased: set<Id>, payments: map<Id, Payment>)
      modifies `schedule
      ensures Rescheduled(old(Now()), Now())
      ensures Earliest(DueWatches(old(schedule), now), leased, limit, WatchDueAt(old(schedule)))
      ensures forall id :: id in leased ==> IsDue(old(schedule), id, now)
      ensures |leased| <= limit && (|leased| < limit ==> forall id :: IsDue(old(schedule), id, now) ==> id in leased)
      ensures forall id :: id in schedule ==>
        schedule[id].dueAt == if id in leased then Some(now + lease) else old(schedule)[id].dueAt
      ensures ArePayments(old(Now()), leased, payments)
      ensures Watchful(old(Now())) && Consistent(old(Now())) ==> payments.Keys == leased
    {
      hide ArePayments, Watchful, Consistent;
      leased := TakeEarliest(DueWatches(schedule, now), limit, WatchDueAt(schedule));
      ShortOfTheLimit(DueWatches(schedule, now), leased, limit, WatchDueAt(schedule));
      Lease(leased, now + lease);
      payments := PaymentsFor(leased);
      PaymentsSeeRows(Now(), old(Now()), leased, payments);
      if Watchful(old(Now())) && Consistent(old(Now())) { WatchedHavePayments(old(Now()), leased, payments); }
    }

    // ---------------------------------------------------------------- deliveries

    method LeaseTries(leased: set<Key>, until: Time)
      requires leased <= tries.Keys
      modifies `tries
      ensures tries.Keys == old(tries).Keys
      ensures forall k :: k in tries ==>
        (tries[k] == if k in leased then old(tries)[k].(dueAt := Some(until)) else old(tries)[k])
    {
      var rest := leased;
      while rest != {}
        invariant rest <= leased && tries.Keys == old(tries).Keys
        invariant forall k :: k in tries ==>
          (tries[k] == if k in leased - rest then old(tries)[k].(dueAt := Some(until)) else old(tries)[k])
        decreases |rest|
      {
        var key :| key in rest;
        tries := tries[key := tries[key].(dueAt := Some(until))];
        rest := rest - {key};
      }
    }

    /** Lease the `limit` deliveries longest due, passing over webhooks a tombstone says have landed. */
    method DueDeliveries(limit: nat, lease: nat, now: Time) returns (leased: set<Key>)
      modifies `tries
      ensures Rescheduled(old(Now()), Now())
      ensures Earliest(DueTries(old(Now()), now), leased, limit, TryDueAt(old(tries)))
      ensures forall k :: k in leased ==> Deliverable(old(Now()), k, now)
      ensures |leased| <= limit && (|leased| < limit ==> forall k :: Deliverable(old(Now()), k, now) ==> k in leased)
      ensures forall k :: k in tries ==>
        (tries[k] == if k in leased then old(tries)[k].(dueAt := Some(now + lease)) else old(tries)[k])
    {
      leased := TakeEarliest(DueTries(Now(), now), limit, TryDueAt(tries));
      DueIsDeliverable(Now(), now);
      ShortOfTheLimit(DueTries(Now(), now), leased, limit, TryDueAt(tries));
      LeaseTries(leased, now + lease);
    }

    /** Another try later, or, past the deadline, none. */
    method Fail(key: Key, backoff: nat, now: Time) returns (scheduled: bool)
      modifies `tries
      ensures Now() == Undelivered(old(Now()), key, backoff, now)
      ensures (scheduled <==>
        key in old(tries) && now + backoff * (old(tries)[key].attempts + 1) <= old(tries)[key].retryUntil)
      ensures scheduled ==> tries[key].dueAt == Some(now + backoff * tries[key].attempts)
      ensures key in old(tries) && !scheduled ==> tries[key].dueAt.None? && tries[key].parkedAt == Some(now)
      ensures key in old(tries) ==> tries[key].attempts == old(tries)[key].attempts + 1
    {
      if key !in tries { return false; }
      var tried := tries[key];
      var attempts := tried.attempts + 1;
      var nextAt := now + backoff * attempts;
      var abandoned := nextAt > tried.retryUntil;
      tries := tries[key := tried.(
        attempts := attempts,
        dueAt := if abandoned then None else Some(nextAt),
        parkedAt := if abandoned then Some(now) else None)];
      scheduled := !abandoned;
    }

    /**
     The soonest due time of the worklist and the outbox: never later than the next poll or delivery
     there is to do.
     */
    method NextDueAt() returns (soonest: Option<Time>)
      ensures forall id, t :: id in schedule && schedule[id].dueAt == Some(t) ==> soonest.Some? && soonest.value <= t
      ensures forall k, t :: k in tries && tries[k].dueAt == Some(t) ==> soonest.Some? && soonest.value <= t
      ensures soonest.Some? ==>
        || (exists id :: id in schedule && schedule[id].dueAt == soonest)
        || (exists k :: k in tries && tries[k].dueAt == soonest)
    {
      soonest := Soonest(TimesDue());
      forall id, t: Time | id in schedule && schedule[id].dueAt == Some(t) ensures t in TimesDue() {}
      forall k, t: Time | k in tries && tries[k].dueAt == Some(t) ensures t in TimesDue() {}
    }

    // ---------------------------------------------------------------- the sweep

    method Delete(keys: set<Key>)
      modifies `rows, `heard, `tries
      ensures Now() == Dropped(old(Now()), keys)
    {
      rows, heard, tries := rows - keys, heard - keys, tries - keys;
    }

    method DeleteOutlived(grace: nat, now: Time)
      modifies this
      ensures Now() == Pruned(old(Now()), grace, now)
    {
      hide Dropped, LateAccepted, SettledAccepted, SpentOutbox, SurplusPaid, OldDelivered, Pruned;
      var cut := now - grace;
      EndedStaysEnded(schedule, now, cut);
      schedule := MarkedExpired(schedule, now);
      schedule := schedule - Ended(schedule, cut);
      Delete(LateAccepted(Now(), cut));
      Delete(SettledAccepted(Now(), cut));
      Delete(SpentOutbox(Now(), cut));
      Delete(SurplusPaid(Now(), cut));
      Delete(OldDelivered(Now(), cut));
      StatementsPrune(old(Now()), Now(), grace, now);
    }

    /** A webhook nobody owes, owed again by this instance. */
    method Repair(missing: Missing, now: Time)
      modifies this
      ensures Now() == OwedMissing(old(Now()), missing, now)
    {
      hide Owed, Settlement;
      var settled := Settlement(Now(), missing.id);
      if settled.None? { return; }
      var fact := Owe(missing.id, missing.url, Body(settled.value, missing.settledAt), now);
    }

    /** Retention, then repair. `expired` are the watches that ended since the last sweep. */
    method Sweep(grace: nat, now: Time) returns (expired: map<Id, Payment>, ghost order: seq<Missing>)
      modifies this
      ensures ArePayments(old(Now()), NewlyExpired(old(schedule), now), expired)
      ensures NewlyExpired(schedule, now) == {}
      ensures Lists(order, Unowed(Pruned(old(Now()), grace, now), now))
      ensures Now() == Swept(old(Now()), grace, order, now)
    {
      hide Unowed, OwedMissing, Pruned, ArePayments;
      expired := PaymentsFor(NewlyExpired(schedule, now));
      DeleteOutlived(grace, now);
      NoneNewlyExpired(old(Now()), grace, now);
      ghost var p := Now();
      var missing := Unowed(Now(), now);
      order := [];
      while missing != {}
        invariant missing <= Unowed(p, now)
        invariant Lists(order, Unowed(p, now) - missing)
        invariant Now() == OwedEvery(p, order, now)
        decreases |missing|
      {
        var next :| next in missing;
        OwedEveryThenOne(p, order, next, now);
        Repair(next, now);
        order, missing := order + [next], missing - {next};
      }
      OwedEverySchedule(p, order, now);
    }
  }
}
