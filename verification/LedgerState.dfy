/**
 One instance's ledger as a value, and what each operation makes of it.
 `Ledgers` holds the class whose methods compute these functions; the other modules
 prove what the operations keep.
 */
module LedgerState {
  import opened Options
  import opened Facts

  const GAP_BATCH: nat := 500
  const RETRY_FLOOR_SECS: nat := 3600
  const UNOWED_SLACK_SECS: nat := 60

  /** A row of the worklist. */
  datatype Watch = Watch(expiresAt: Time, dueAt: Option<Time>, announced: bool)

  /** The local columns of an outbox row. */
  datatype Tries = Tries(dueAt: Option<Time>, attempts: nat, retryUntil: Time, parkedAt: Option<Time>)

  datatype Missing = Missing(id: Id, url: Url, settledAt: Time)

  /**
   What the ledger asks of its surroundings: whether a fact's MAC, hashes, preimage and
   invoice check out, and when this instance would take over an outbox row.
   */
  datatype Rules = Rules(genuine: Fact -> bool, takeoverAt: Fact -> Time)

  datatype State = State(
    self: Origin, rows: map<Key, Fact>, marks: Watermarks,
    schedule: map<Id, Watch>, heard: map<Key, Time>, tries: map<Key, Tries>)
  {
    function Mark(slot: Slot): nat {
      MarkIn(marks, slot)
    }

    predicate Known(key: Key) {
      key.number <= Mark(key.slot) || key in rows
    }

    predicate Settled(id: Id) {
      exists k :: k in rows && rows[k].PaidFact? && rows[k].id == id
    }

    predicate HasRow(table: Source, id: Id, url: Url)
      requires table.Outbox? || table.Delivered?
    {
      exists k :: k in rows && rows[k].Table() == table && rows[k].id == id && rows[k].url == url
    }
  }

  function Empty(self: Origin): State {
    State(self, map[], map[], map[], map[], map[])
  }

  /** Every row is filed under its own name, and every outbox and paid row has its local columns. */
  ghost predicate Filed(s: State) {
    && (forall k :: k in s.rows ==> s.rows[k].Name() == k)
    && (forall k :: k in s.tries <==> k in s.rows && s.rows[k].OutboxFact?)
    && (forall k :: k in s.heard <==> k in s.rows && s.rows[k].PaidFact?)
  }

  // ---------------------------------------------------------------- marks

  /** The last number of the unbroken run of rows that starts just above `mark`. */
  ghost function Frontier(held: set<Key>, slot: Slot, mark: nat): (end: nat)
    ensures mark <= end
    ensures forall n :: mark < n <= end ==> Key(slot, n) in held
    ensures Key(slot, end + 1) !in held
    decreases held
  {
    var next := Key(slot, mark + 1);
    if next in held then Frontier(held - {next}, slot, mark + 1) else mark
  }

  ghost function Advanced(s: State, slot: Slot): State {
    s.(marks := s.marks[slot := Frontier(s.rows.Keys, slot, s.Mark(slot))])
  }

  /** All marks but those of `todo` are where `cover` takes them. */
  ghost predicate CoveredBut(s: State, marks: Watermarks, through: Watermarks, todo: set<Slot>) {
    && (forall slot ::
      slot in marks <==> slot in s.marks || (slot in through && slot !in todo && slot.origin != s.self))
    && (forall slot :: slot in marks ==>
      (marks[slot] ==
        if slot in through && slot !in todo && slot.origin != s.self
        then Frontier(s.rows.Keys, slot, Max(s.Mark(slot), through[slot])) else s.Mark(slot)))
  }

  lemma CoverStep(s: State, marks: Watermarks, through: Watermarks, todo: set<Slot>, slot: Slot)
    requires CoveredBut(s, marks, through, todo) && slot in todo && todo <= through.Keys
    ensures slot.origin == s.self ==> CoveredBut(s, marks, through, todo - {slot})
    ensures slot.origin != s.self ==>
      CoveredBut(
        s, marks[slot := Frontier(s.rows.Keys, slot, Max(MarkIn(marks, slot), through[slot]))], through, todo - {slot})
  {
  }

  lemma CoveringExists(s: State, through: Watermarks)
    ensures exists marks :: CoveredBut(s, marks, through, {})
  {
    hide CoveredBut;
    var marks: Watermarks := s.marks;
    var todo := through.Keys;
    assert CoveredBut(s, marks, through, todo) by { NothingCovered(s, through); }
    while todo != {}
      invariant todo <= through.Keys && CoveredBut(s, marks, through, todo)
      decreases todo
    {
      var slot :| slot in todo;
      CoverStep(s, marks, through, todo, slot);
      if slot.origin != s.self {
        marks := marks[slot := Frontier(s.rows.Keys, slot, Max(MarkIn(marks, slot), through[slot]))];
      }
      todo := todo - {slot};
    }
  }

  lemma NothingCovered(s: State, through: Watermarks)
    ensures CoveredBut(s, s.marks, through, through.Keys)
  {
  }

  /** `cover`: take another instance's word for how far its batch reached. */
  ghost function Covered(s: State, through: Watermarks): (t: State)
    ensures CoveredBut(s, t.marks, through, {}) && t == s.(marks := t.marks)
  {
    CoveringExists(s, through);
    var marks :| CoveredBut(s, marks, through, {});
    s.(marks := marks)
  }

  // ---------------------------------------------------------------- recording

  /** `nextSeq`: above every row held of this instance's own, and above its own mark. */
  function NextNumber(s: State, table: Source): nat {
    var slot := Slot(table, s.self);
    Max(MaxOf(set k | k in s.rows && k.slot == slot :: k.number), s.Mark(slot)) + 1
  }

  function RetryUntil(s: State, id: Id, owedAt: Time): Time {
    MaxOf({owedAt + RETRY_FLOOR_SECS} +
          set k | k in s.rows && s.rows[k].AcceptedFact? && s.rows[k].id == id :: s.rows[k].expiresAt)
  }

  /** `recordAccepted`, `recordPaid`, `recordOutbox` and `recordDelivered`. */
  ghost function Recorded(s: State, fact: Fact, dueAt: Time, now: Time): State {
    var key := fact.Name();
    if key in s.rows then Advanced(s, key.slot)
    else
      var heard := if fact.PaidFact? then s.heard[key := now] else s.heard;
      var tries :=
        if fact.OutboxFact?
        then s.tries[key := Tries(Some(dueAt), 0, RetryUntil(s, fact.id, fact.owedAt), None)]
        else s.tries;
      Advanced(s.(rows := s.rows[key := fact], heard := heard, tries := tries), key.slot)
  }

  function Watching(s: State, id: Id, expiresAt: Time, dueAt: Time): State {
    if s.Settled(id) || id in s.schedule then s
    else s.(schedule := s.schedule[id := Watch(expiresAt, Some(dueAt), false)])
  }

  function Forgotten(s: State, id: Id): State {
    s.(schedule := s.schedule - {id})
  }

  // ---------------------------------------------------------------- absorbing what peers say

  predicate Proven(rules: Rules, fact: Fact) {
    && rules.genuine(fact)
    && (fact.AcceptedFact? ==> fact.payment.id == fact.id && fact.payment.expiresAt == fact.expiresAt)
    && (fact.PaidFact? ==> fact.payment.id == fact.id)
  }

  ghost function Learned(rules: Rules, s: State, fact: Fact, standby: Fact -> Time, now: Time): State {
    if s.Known(fact.Name()) || !Proven(rules, fact) then s
    else
      var t := Recorded(s, fact, rules.takeoverAt(fact), now);
      match fact
      case AcceptedFact(_, _, id, _, _, expiresAt) => Watching(t, id, expiresAt, standby(fact))
      case PaidFact(_, _, id, _, _) => Forgotten(t, id)
      case OutboxFact(_, _, _, _, _, _) => t
      case DeliveredFact(_, _, _, _, _) => t
  }

  ghost function LearnedAll(
    rules: Rules, s: State, facts: seq<Fact>, standby: Fact -> Time, now: Time): State
    decreases |facts|
  {
    if facts == [] then s
    else LearnedAll(rules, Learned(rules, s, facts[0], standby, now), facts[1..], standby, now)
  }

  ghost function Absorbed(
    rules: Rules, s: State, facts: seq<Fact>, through: Option<Watermarks>, standby: Fact -> Time, now: Time): State
  {
    var t := LearnedAll(rules, s, InOrder(facts), standby, now);
    if through.Some? then Covered(t, through.value) else t
  }

  /** The settlements a list of facts brings news of, in the order they are heard. */
  ghost function Announced(
    rules: Rules, s: State, facts: seq<Fact>, standby: Fact -> Time, now: Time): seq<Payment>
    decreases |facts|
  {
    if facts == [] then []
    else
      var news := facts[0].PaidFact? && !s.Known(facts[0].Name()) && Proven(rules, facts[0]);
      (if news then [facts[0].payment] else [])
      + Announced(rules, Learned(rules, s, facts[0], standby, now), facts[1..], standby, now)
  }

  // ---------------------------------------------------------------- answering a peer

  datatype Reply = Reply(facts: seq<Fact>, more: bool, through: Watermarks)

  /** The rows of one lane numbered in (above, upTo], ascending. */
  function Stretch(rows: map<Key, Fact>, slot: Slot, above: nat, upTo: nat): (facts: seq<Fact>)
    decreases upTo - above
  {
    if upTo <= above then []
    else
      var key := Key(slot, above + 1);
      var rest := Stretch(rows, slot, above + 1, upTo);
      if key in rows then [rows[key]] + rest else rest
  }

  function Batch(s: State, slot: Slot, seen: nat): seq<Fact> {
    var all := Stretch(s.rows, slot, seen, s.Mark(slot));
    if |all| < GAP_BATCH then all else all[..GAP_BATCH]
  }

  predicate Cut(s: State, slot: Slot, seen: nat) {
    |Batch(s, slot, seen)| == GAP_BATCH
  }

  function Reaches(s: State, slot: Slot, seen: nat): nat {
    if Cut(s, slot, seen) then Batch(s, slot, seen)[GAP_BATCH - 1].number else s.Mark(slot)
  }

  predicate Behind(s: State, theirs: Watermarks, slot: Slot) {
    slot in s.marks && MarkIn(theirs, slot) < s.marks[slot]
  }

  /** What `since` answers; the order its lanes come in is the database's. */
  ghost predicate IsReply(s: State, theirs: Watermarks, reply: Reply) {
    && (forall slot :: slot in reply.through <==> Behind(s, theirs, slot))
    && (forall slot :: slot in reply.through ==> reply.through[slot] == Reaches(s, slot, MarkIn(theirs, slot)))
    && (reply.more <==> exists slot :: Behind(s, theirs, slot) && Cut(s, slot, MarkIn(theirs, slot)))
    && (forall f :: f in reply.facts <==>
      exists slot :: Behind(s, theirs, slot) && f in Batch(s, slot, MarkIn(theirs, slot)))
  }

  // ---------------------------------------------------------------- taking payments on and settling them

  function MergedWebhooks(known: seq<Url>, added: seq<Url>): seq<Url> {
    known + Without(added, known)
  }

  function Without(added: seq<Url>, known: seq<Url>): seq<Url> {
    if added == [] then []
    else (if added[0] in known then [] else [added[0]]) + Without(added[1..], known)
  }

  function OneFromEvery(one: Payment, others: seq<Payment>): Payment
    decreases |others|
  {
    if others == [] then one
    else OneFromEvery(one.(webhooks := MergedWebhooks(one.webhooks, others[0].webhooks)), others[1..])
  }

  function AcceptedRows(s: State, id: Id): seq<Payment> {
    var keys := Sorted(set k | k in s.rows && s.rows[k].AcceptedFact? && s.rows[k].id == id);
    seq(|keys|, i requires 0 <= i < |keys| => assert keys[i] in keys; s.rows[keys[i]].payment)
  }

  function Read(s: State, id: Id): Option<Payment> {
    var rows := AcceptedRows(s, id);
    if rows == [] then None else Some(OneFromEvery(rows[0], rows[1..]))
  }

  /** The payments read back for a set of ids. */
  ghost predicate ArePayments(s: State, ids: set<Id>, payments: map<Id, Payment>) {
    forall id :: (id in payments <==> id in ids && Read(s, id).Some?)
              && (id in payments ==> payments[id] == Read(s, id).value)
  }

  /** A settlement of this id, the first filed when several instances settled it. */
  function Settlement(s: State, id: Id): Option<Payment> {
    var keys := Sorted(set k | k in s.rows && s.rows[k].PaidFact? && s.rows[k].id == id);
    if keys == [] then None else assert keys[0] in keys; Some(s.rows[keys[0]].payment)
  }

  /** What `accept` writes for a payment, if it has anything new to say. */
  function AcceptedNews(s: State, payment: Payment, now: Time): Option<Fact> {
    var held := Read(s, payment.id);
    var webhooks := if held.Some? then MergedWebhooks(held.value.webhooks, payment.webhooks) else payment.webhooks;
    if held.None? || |webhooks| > |held.value.webhooks| then
      Some(AcceptedFact(
        s.self, NextNumber(s, Accepted), payment.id, payment.(webhooks := webhooks), now, payment.expiresAt))
    else None
  }

  ghost function Taken(s: State, payment: Payment, dueAt: Time, now: Time): State {
    var news := AcceptedNews(s, payment, now);
    var t := if news.Some? then Recorded(s, news.value, 0, now) else s;
    Watching(t, payment.id, Read(s, payment.id).Or(payment).expiresAt, dueAt)
  }

  ghost function Owed(s: State, id: Id, url: Url, body: Body, now: Time): State {
    Recorded(s, OutboxFact(s.self, NextNumber(s, Outbox), id, url, body, now), 0, now)
  }

  ghost function OwedAll(s: State, id: Id, urls: seq<Url>, body: Body, now: Time): State
    decreases |urls|
  {
    if urls == [] then s else OwedAll(Owed(s, id, urls[0], body, now), id, urls[1..], body, now)
  }

  ghost function Opened(s: State, watched: Payment, now: Time): State {
    var record := watched.(webhooks := []);
    var fact := PaidFact(s.self, NextNumber(s, Paid), watched.id, record, now);
    var t := OwedAll(Recorded(s, fact, 0, now), watched.id, watched.webhooks, Body(record, now), now);
    Forgotten(t, watched.id)
  }

  ghost function Landed(s: State, id: Id, url: Url, now: Time): State {
    Recorded(s, DeliveredFact(s.self, NextNumber(s, Delivered), id, url, now), 0, now)
  }

  // ---------------------------------------------------------------- delivering

  /** `undelivered`: the row after one more failure at `now`. */
  function FailedOnce(tries: Tries, backoff: nat, now: Time): Tries {
    var attempts := tries.attempts + 1;
    var nextAt := now + backoff * attempts;
    var abandoned := nextAt > tries.retryUntil;
    tries.(attempts := attempts,
           dueAt := if abandoned then None else Some(nextAt),
           parkedAt := if abandoned then Some(now) else None)
  }

  function Undelivered(s: State, key: Key, backoff: nat, now: Time): State {
    if key !in s.tries then s else s.(tries := s.tries[key := FailedOnce(s.tries[key], backoff, now)])
  }

  // ---------------------------------------------------------------- the sweep

  /**
   Settled later than `other`, or at the same time under a higher number; the origin breaks what ties
   SQL leaves.
   */
  predicate Newer(p: Fact, other: Fact)
    requires p.PaidFact? && other.PaidFact?
  {
    || p.settledAt > other.settledAt
    || (p.settledAt == other.settledAt
        && (p.number > other.number || (p.number == other.number && p.origin > other.origin)))
  }

  function NewerRows(rows: map<Key, Fact>, p: Fact): set<Key>
    requires p.PaidFact?
  {
    set k | k in rows && rows[k].PaidFact? && rows[k].payment.trigger == p.payment.trigger && Newer(rows[k], p)
  }

  /** ROW_NUMBER() over the trigger's settlements, newest first. */
  function Nth(rows: map<Key, Fact>, p: Fact): nat
    requires p.PaidFact?
  {
    |NewerRows(rows, p)| + 1
  }

  predicate SettledBy(rows: map<Key, Fact>, id: Id, cut: int) {
    exists k :: k in rows && rows[k].PaidFact? && rows[k].id == id && rows[k].settledAt <= cut
  }

  predicate BeyondReplay(rows: map<Key, Fact>, id: Id) {
    exists k :: k in rows && rows[k].PaidFact? && rows[k].id == id && Nth(rows, rows[k]) > rows[k].payment.replay
  }

  predicate Outlived(s: State, key: Key, cut: int)
    requires key in s.rows
  {
    match s.rows[key]
    case AcceptedFact(_, _, id, _, _, expiresAt) => expiresAt <= cut || SettledBy(s.rows, id, cut)
    case PaidFact(_, _, id, _, settledAt) => settledAt <= cut && BeyondReplay(s.rows, id)
    case OutboxFact(_, _, id, url, _, owedAt) =>
      || (key in s.tries && s.tries[key].dueAt.None? && s.tries[key].parkedAt.Or(owedAt) <= cut)
      || (owedAt <= cut && s.HasRow(Delivered, id, url))
    case DeliveredFact(_, _, _, _, deliveredAt) => deliveredAt <= cut
  }

  function Late(s: State, cut: int): set<Key> {
    set k | k in s.rows && Outlived(s, k, cut)
  }

  function MarkedExpired(schedule: map<Id, Watch>, now: Time): map<Id, Watch> {
    map id | id in schedule ::
      if schedule[id].expiresAt <= now then schedule[id].(announced := true) else schedule[id]
  }

  function Ended(schedule: map<Id, Watch>, cut: int): set<Id> {
    set id | id in schedule && schedule[id].expiresAt <= cut
  }

  /** Deleting a row deletes its local columns with it. */
  function Dropped(s: State, keys: set<Key>): State {
    s.(rows := s.rows - keys, heard := s.heard - keys, tries := s.tries - keys)
  }

  /** Everything the sweep deletes, before it looks for webhooks nobody owes. */
  function Pruned(s: State, grace: nat, now: Time): State {
    var cut := now - grace;
    Dropped(s, Late(s, cut)).(schedule := MarkedExpired(s.schedule, now) - Ended(s.schedule, cut))
  }

  /** The webhooks of settled payments that neither an outbox row nor a tombstone mentions. */
  function Unowed(s: State, now: Time): set<Missing> {
    set a, p, url |
      && a in s.rows && s.rows[a].AcceptedFact? && url in s.rows[a].payment.webhooks
      && p in s.rows && s.rows[p].PaidFact? && s.rows[p].id == s.rows[a].id
      && (if p in s.heard then s.heard[p] else s.rows[p].settledAt) <= now - UNOWED_SLACK_SECS
      && !s.HasRow(Outbox, s.rows[a].id, url) && !s.HasRow(Delivered, s.rows[a].id, url)
      :: Missing(s.rows[a].id, url, s.rows[p].settledAt)
  }

  ghost function OwedMissing(s: State, missing: Missing, now: Time): State {
    var settled := Settlement(s, missing.id);
    if settled.None? then s else Owed(s, missing.id, missing.url, Body(settled.value, missing.settledAt), now)
  }

  ghost function OwedEvery(s: State, order: seq<Missing>, now: Time): State
    decreases |order|
  {
    if order == [] then s else OwedEvery(OwedMissing(s, order[0], now), order[1..], now)
  }

  ghost predicate Lists(order: seq<Missing>, missing: set<Missing>) {
    && (forall m :: m in order <==> m in missing)
    && (forall i, j :: 0 <= i < j < |order| ==> order[i] != order[j])
  }

  /** `sweep`; `order` is the order the database lists the unowed webhooks in. */
  ghost function Swept(s: State, grace: nat, order: seq<Missing>, now: Time): State {
    OwedEvery(Pruned(s, grace, now), order, now)
  }

  // ---------------------------------------------------------------- what the store asks of the ledger

  /** `Store.insert`: a payment already settled is handed back, any other is taken on. */
  ghost function Inserted(s: State, payment: Payment, dueAt: Time, now: Time): State {
    if s.Settled(payment.id) then s else Taken(s, payment, dueAt, now)
  }

  /**
   `Store.paid`: a second settlement only leaves the worklist, one whose preimage does not open the
   hash is refused.
   */
  ghost function Settling(s: State, id: Id, opens: bool, now: Time): State {
    if s.Settled(id) then Forgotten(s, id)
    else
      var watched := Read(s, id);
      if watched.None? || !opens then s else Opened(s, watched.value, now)
  }

  /** Leases, polls, misses and failed deliveries move due times and nothing else of the worklist. */
  ghost predicate Rescheduled(s: State, t: State) {
    && t == s.(schedule := t.schedule, tries := t.tries)
    && t.schedule.Keys == s.schedule.Keys
    && (forall id :: id in s.schedule ==> t.schedule[id] == s.schedule[id].(dueAt := t.schedule[id].dueAt))
    && t.tries.Keys == s.tries.Keys
  }
}
