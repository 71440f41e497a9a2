/**
 The deliveries of a whole ledger: along any run of leases, failures, writes, sweeps and notes, the
 columns of each outbox row go through a run of `Retries`, so what holds of those holds of every row.
 */
module Deliveries {
  import opened Options
  import opened Facts
  import opened LedgerState
  import opened LedgerSteps
  import opened Replication
  import opened Clusters
  import opened ClusterSafety
  import opened Takeovers
  import R = Retries

  datatype LedgerStep =
    | Lease(leased: set<Key>)
    | Fail(key: Key)
    | Write(act: Action)
    | Hear(facts: seq<Fact>, through: Option<Watermarks>, standby: Fact -> Time)
    | Poll

  /** A ledger, and when the attempts still under way were leased; the latter is what the processes know. */
  datatype Desk = Desk(ledger: State, underWay: map<Key, Time>)

  /** Due rows are leased; only an attempt under way can fail; everything else is as the cluster has it. */
  ghost predicate Moves(
    rules: Rules, d: Desk, step: LedgerStep, e: Desk, now: Time, backoff: nat, lease: nat)
  {
    var s, t := d.ledger, e.ledger;
    && Sound(t)
    && match step
       case Lease(leased) =>
         && leased <= DueTries(s, now)
         && t == s.(tries := t.tries) && t.tries.Keys == s.tries.Keys
         && (forall k :: k in t.tries ==>
           (t.tries[k] == if k in leased then s.tries[k].(dueAt := Some(now + lease)) else s.tries[k]))
         && e.underWay.Keys == d.underWay.Keys + leased
         && (forall k :: k in e.underWay ==> (e.underWay[k] == if k in d.underWay then d.underWay[k] else now))
       case Fail(key) =>
         && key in d.underWay && d.underWay[key] <= now
         && t == Undelivered(s, key, backoff, now) && e.underWay == d.underWay - {key}
       case Write(act) => !act.Reschedule? && Acts(s, act, t) && e.underWay == d.underWay
       case Hear(facts, through, standby) =>
         t == Absorbed(rules, s, facts, through, standby, now) && e.underWay == d.underWay
       case Poll => Rescheduled(s, t) && t.tries == s.tries && e.underWay == d.underWay
  }

  ghost predicate LedgerRun(
    rules: Rules, trace: seq<Desk>, steps: seq<LedgerStep>, clock: seq<Time>, backoff: nat, lease: nat)
  {
    && |trace| == |steps| + 1 == |clock| + 1 && Sound(trace[0].ledger)
    && forall n :: 0 <= n < |steps| ==> Moves(rules, trace[n], steps[n], trace[n + 1], clock[n], backoff, lease)
  }

  // ---------------------------------------------------------------- rows nobody leases or fails

  /** A row that comes is due some time, untried and unparked; a row that stays keeps its columns. */
  ghost predicate LeavesTries(s: State, t: State) {
    && R.KeepsTries(s, t)
    && forall k :: k in t.tries && k !in s.tries ==> Untried(t.tries[k])
  }

  predicate Untried(tries: Tries) {
    tries.attempts == 0 && tries.dueAt.Some? && tries.parkedAt.None?
  }

  lemma DueAtOnceLeavesTries(s: State, t: State)
    requires DueAtOnce(s, t)
    ensures LeavesTries(s, t)
  {
  }

  lemma SameTriesLeft(s: State, t: State)
    requires t.tries == s.tries
    ensures LeavesTries(s, t)
  {
  }

  lemma WatchingLeavesTries(s: State, r: State, t: State)
    requires LeavesTries(s, r) && t.tries == r.tries
    ensures LeavesTries(s, t)
  {
  }

  lemma TakenLeavesTries(s: State, payment: Payment, dueAt: Time, now: Time)
    requires Sound(s)
    ensures LeavesTries(s, Taken(s, payment, dueAt, now))
  {
    hide Recorded, LeavesTries, DueAtOnce, Sound, Read, NextNumber;
    var news := AcceptedNews(s, payment, now);
    SameTriesLeft(s, s);
    var r := s;
    if news.Some? {
      r := Recorded(s, news.value, 0, now);
      R.SoundFiles(s);
      RecordedIsDueAtOnce(s, news.value, now);
      DueAtOnceLeavesTries(s, r);
    }
    WatchingLeavesTries(s, r, Taken(s, payment, dueAt, now));
  }

  lemma LandedLeavesTries(s: State, id: Id, url: Url, now: Time)
    requires Sound(s)
    ensures LeavesTries(s, Landed(s, id, url, now))
  {
    hide Recorded, LeavesTries, DueAtOnce, Sound, NextNumber;
    R.SoundFiles(s);
    RecordedIsDueAtOnce(s, DeliveredFact(s.self, NextNumber(s, Delivered), id, url, now), now);
    DueAtOnceLeavesTries(s, Landed(s, id, url, now));
  }

  /** What the sweep deletes it does not write again in the same breath: its repairs use new numbers. */
  lemma PrunedThenOwed(s: State, p: State, t: State)
    requires Sound(s) && Prunes(s, p) && Issues(p, t) && Sound(p) && Sound(t)
    requires R.KeepsTries(s, p) && p.tries.Keys <= s.tries.Keys && DueAtOnce(p, t)
    ensures LeavesTries(s, t)
  {
    forall k | k in t.tries && k !in p.tries ensures k !in s.tries {
      assert k in t.rows && k !in p.rows;
      assert MarkIn(s.marks, k.slot) < k.number;
    }
  }

  lemma SweptLeavesTries(s: State, grace: nat, order: seq<Missing>, now: Time)
    requires Sound(s)
    ensures LeavesTries(s, Swept(s, grace, order, now))
  {
    hide Sound, Issues, Prunes, Pruned, OwedEvery, DueAtOnce, LeavesTries;
    SweptIssues(s, grace, order, now);
    R.PrunedKeepsTries(s, grace, now);
    OwedEveryIsDueAtOnce(Pruned(s, grace, now), order, now);
    PrunedThenOwed(s, Pruned(s, grace, now), Swept(s, grace, order, now));
  }

  lemma ActLeavesTries(s: State, act: Action, t: State)
    requires Sound(s) && Acts(s, act, t) && !act.Reschedule?
    ensures LeavesTries(s, t)
  {
    hide Sound, Taken, Opened, Landed, Swept, LeavesTries, DueAtOnce, Read, State.Settled;
    SameTriesLeft(s, s);
    match act
    case Insert(payment, dueAt, now) => TakenLeavesTries(s, payment, dueAt, now);
    case Pay(id, opens, now) =>
      SameTriesLeft(s, Forgotten(s, id));
      if Read(s, id).Some? {
        SettlerTriesAtOnce(s, Read(s, id).value, now);
        DueAtOnceLeavesTries(s, Opened(s, Read(s, id).value, now));
      }
    case Deliver(id, url, now) => LandedLeavesTries(s, id, url, now);
    case Sweep(grace, order, now) => SweptLeavesTries(s, grace, order, now);
  }

  lemma HeardLeavesTries(
    rules: Rules, s: State, facts: seq<Fact>, through: Option<Watermarks>, standby: Fact -> Time, now: Time)
    requires Sound(s)
    ensures LeavesTries(s, Absorbed(rules, s, facts, through, standby, now))
  {
    hide LearnedAll, Sound;
    R.SoundFiles(s);
    OthersWaitToTakeOver(rules, s, InOrder(facts), standby, now);
  }

  // ---------------------------------------------------------------- one row's columns

  /** The columns of one row, as `Retries` sees them. */
  function RowAt(d: Desk, key: Key): R.Row
    requires key in d.ledger.tries
  {
    R.Row(d.ledger.tries[key], if key in d.underWay then Some(d.underWay[key]) else None)
  }

  /** What a step of the ledger is to one row. */
  function EventAt(step: LedgerStep, key: Key, now: Time): R.Event {
    match step
    case Lease(leased) => if key in leased then R.Leased(now) else R.Idles
    case Fail(failed) => if key == failed then R.Failed(now) else R.Idles
    case Write(_) => R.Idles
    case Hear(_, _, _) => R.Idles
    case Poll => R.Idles
  }

  lemma StepMovesRow(
    rules: Rules, d: Desk, step: LedgerStep, e: Desk, now: Time, backoff: nat, lease: nat, key: Key)
    requires Sound(d.ledger) && Moves(rules, d, step, e, now, backoff, lease)
    requires key in d.ledger.tries && key in e.ledger.tries
    ensures R.Steps(RowAt(d, key), EventAt(step, key, now), RowAt(e, key), backoff, lease)
  {
    hide Sound, Acts, Absorbed, State.HasRow;
    match step
    case Lease(leased) =>
    case Fail(_) =>
    case Write(act) => ActLeavesTries(d.ledger, act, e.ledger);
    case Hear(facts, through, standby) => HeardLeavesTries(rules, d.ledger, facts, through, standby, now);
    case Poll =>
  }

  /** A row that comes, comes untried. */
  lemma RowsComeUntried(
    rules: Rules, d: Desk, step: LedgerStep, e: Desk, now: Time, backoff: nat, lease: nat, key: Key)
    requires Sound(d.ledger) && Moves(rules, d, step, e, now, backoff, lease)
    requires key !in d.ledger.tries && key in e.ledger.tries
    ensures Untried(e.ledger.tries[key])
  {
    hide Sound, Acts, Absorbed, State.HasRow;
    match step
    case Lease(leased) =>
    case Fail(_) =>
    case Write(act) => ActLeavesTries(d.ledger, act, e.ledger);
    case Hear(facts, through, standby) => HeardLeavesTries(rules, d.ledger, facts, through, standby, now);
    case Poll =>
  }

  // ---------------------------------------------------------------- a row's whole life

  ghost predicate HeldFrom(trace: seq<Desk>, from: nat, key: Key) {
    from < |trace| && forall n :: from <= n < |trace| ==> key in trace[n].ledger.tries
  }

  ghost function RowsOf(trace: seq<Desk>, from: nat, key: Key): seq<R.Row>
    requires HeldFrom(trace, from, key)
  {
    seq(|trace| - from, i requires 0 <= i < |trace| - from => RowAt(trace[from + i], key))
  }

  ghost function EventsOf(steps: seq<LedgerStep>, clock: seq<Time>, from: nat, key: Key): seq<R.Event>
    requires from <= |steps| == |clock|
  {
    seq(|steps| - from, i requires 0 <= i < |steps| - from => EventAt(steps[from + i], key, clock[from + i]))
  }

  lemma {:induction false} LedgerStaysSound(
    rules: Rules, trace: seq<Desk>, steps: seq<LedgerStep>, clock: seq<Time>, backoff: nat, lease: nat, n: nat)
    requires LedgerRun(rules, trace, steps, clock, backoff, lease) && n < |trace|
    ensures Sound(trace[n].ledger)
  {
    hide Sound;
    if n > 0 { assert Moves(rules, trace[n - 1], steps[n - 1], trace[n], clock[n - 1], backoff, lease); }
  }

  /**
   From the moment a row is untried, its columns go through a run of leases and failures, whatever
   else the ledger does.
   */
  lemma ColumnsAreARun(
    rules: Rules, trace: seq<Desk>, steps: seq<LedgerStep>, clock: seq<Time>, backoff: nat, lease: nat,
    from: nat, key: Key)
    requires LedgerRun(rules, trace, steps, clock, backoff, lease)
    requires HeldFrom(trace, from, key) && Untried(trace[from].ledger.tries[key])
    ensures R.Run(RowsOf(trace, from, key), EventsOf(steps, clock, from, key), backoff, lease)
  {
    hide Moves, Sound, R.Steps;
    var rows, events := RowsOf(trace, from, key), EventsOf(steps, clock, from, key);
    assert rows[0] == RowAt(trace[from], key);
    forall i | 0 <= i < |events| ensures R.Steps(rows[i], events[i], rows[i + 1], backoff, lease) {
      LedgerStaysSound(rules, trace, steps, clock, backoff, lease, from + i);
      StepMovesRow(rules, trace[from + i], steps[from + i], trace[from + i + 1], clock[from + i], backoff, lease, key);
    }
  }

  /**
   The theorem, of a ledger: with a backoff of a second or more, an outbox row fails at most once for
   each second there was between its first failure and the deadline it was written with, and once
   more, and after more failures than there were seconds it is parked.
   */
  lemma EveryRowParksInTime(
    rules: Rules, trace: seq<Desk>, steps: seq<LedgerStep>, clock: seq<Time>, backoff: nat, lease: nat,
    from: nat, key: Key)
    requires LedgerRun(rules, trace, steps, clock, backoff, lease) && backoff >= 1 && from > 0
    requires HeldFrom(trace, from, key) && key !in trace[from - 1].ledger.tries
    ensures var last, events := trace[|trace| - 1].ledger.tries[key], EventsOf(steps, clock, from, key);
      var left := R.TimeLeft(R.FirstFailure(events), trace[from].ledger.tries[key].retryUntil);
      && last.retryUntil == trace[from].ledger.tries[key].retryUntil
      && last.attempts == R.Failures(events) <= left + 1
      && (last.attempts > left ==> last.dueAt.None? && last.parkedAt.Some?)
  {
    hide Moves, Sound, R.Run;
    LedgerStaysSound(rules, trace, steps, clock, backoff, lease, from - 1);
    assert Moves(rules, trace[from - 1], steps[from - 1], trace[from], clock[from - 1], backoff, lease);
    RowsComeUntried(rules, trace[from - 1], steps[from - 1], trace[from], clock[from - 1], backoff, lease, key);
    ColumnsAreARun(rules, trace, steps, clock, backoff, lease, from, key);
    var rows, events := RowsOf(trace, from, key), EventsOf(steps, clock, from, key);
    R.FailuresAreFew(rows, events, backoff, lease, |events|);
    R.RunKeepsSpaced(rows, events, backoff, lease, |events|);
    assert events[..|events|] == events;
    assert rows[0] == RowAt(trace[from], key) && rows[|events|] == RowAt(trace[|trace| - 1], key);
  }

  /**
   And none sooner: at any moment a row is parked exactly when its next backoff, counted from its last
   failure, passes the deadline it was written with.
   */
  lemma EveryRowIsTriedWhileTimeIsLeft(
    rules: Rules, trace: seq<Desk>, steps: seq<LedgerStep>, clock: seq<Time>, backoff: nat, lease: nat,
    from: nat, key: Key)
    requires LedgerRun(rules, trace, steps, clock, backoff, lease) && from > 0
    requires HeldFrom(trace, from, key) && key !in trace[from - 1].ledger.tries
    ensures var row, events := trace[|trace| - 1].ledger.tries[key], EventsOf(steps, clock, from, key);
      var last := R.LastFailure(events);
      && (row.dueAt.None? <==> last.Some? && last.value + backoff * R.Failures(events) > row.retryUntil)
      && row.retryUntil == trace[from].ledger.tries[key].retryUntil
  {
    hide Moves, Sound, R.Run;
    LedgerStaysSound(rules, trace, steps, clock, backoff, lease, from - 1);
    assert Moves(rules, trace[from - 1], steps[from - 1], trace[from], clock[from - 1], backoff, lease);
    RowsComeUntried(rules, trace[from - 1], steps[from - 1], trace[from], clock[from - 1], backoff, lease, key);
    ColumnsAreARun(rules, trace, steps, clock, backoff, lease, from, key);
    var rows, events := RowsOf(trace, from, key), EventsOf(steps, clock, from, key);
    R.ParkedExactlyPastTheDeadline(rows, events, backoff, lease, |events|);
    assert events[..|events|] == events;
    assert rows[0] == RowAt(trace[from], key) && rows[|events|] == RowAt(trace[|trace| - 1], key);
  }
}
