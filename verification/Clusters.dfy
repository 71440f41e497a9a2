/**
 Any number of instances and the notes between them. A note, once sent, stays on the wire and
 may be heard any number of times, in any order, or never: this is every way a link can lose,
 repeat and reorder. An answer to `have` goes to the instance that asked; a push goes to all.
 */
module Clusters {
  import opened Options
  import opened Facts
  import opened LedgerState
  import opened Replication

  /**
   `asked` and `sender` record the two sets of marks an answer was made from; the receiver does not
   look at them.
   */
  datatype Note =
    | Have(asker: Origin, to: Origin, marks: Watermarks)
    | Answer(to: Origin, reply: Reply, asked: Watermarks, sender: Watermarks)
    | Push(facts: seq<Fact>)
  {
    function Facts(): seq<Fact> {
      match this
      case Have(_, _, _) => []
      case Answer(_, reply, _, _) => reply.facts
      case Push(facts) => facts
    }

    function Through(): Option<Watermarks> {
      match this
      case Have(_, _, _) => None
      case Answer(_, reply, _, _) => Some(reply.through)
      case Push(_) => None
    }
  }

  /** What has happened so far; no instance can read it. */
  datatype History = History(
    issued: map<Key, Fact>, recorded: map<Origin, set<Key>>, pruned: set<Key>, refused: set<Key>)

  datatype Cluster = Cluster(at: map<Origin, State>, wire: set<Note>, past: History) {
    function Mark(who: Origin, slot: Slot): nat
      requires who in at
    {
      MarkIn(at[who].marks, slot)
    }

    /** The one excuse for a number below a mark that was never recorded. */
    predicate Gone(k: Key) {
      k in past.pruned || k in past.refused
    }
  }

  /**
   The cluster key decides what is genuine everywhere; when to take a delivery over is each
   instance's own.
   */
  datatype World = World(genuine: Fact -> bool, takeoverAt: Origin -> (Fact -> Time)) {
    function RulesAt(who: Origin): Rules {
      Rules(genuine, takeoverAt(who))
    }
  }

  datatype Action =
    | Insert(payment: Payment, dueAt: Time, now: Time)
    | Pay(id: Id, opens: bool, now: Time)
    | Deliver(id: Id, url: Url, now: Time)
    | Sweep(grace: nat, order: seq<Missing>, now: Time)
    | Reschedule

  ghost predicate Acts(s: State, act: Action, t: State) {
    match act
    case Insert(payment, dueAt, now) => t == Inserted(s, payment, dueAt, now)
    case Pay(id, opens, now) => t == Settling(s, id, opens, now)
    case Deliver(id, url, now) => t == Landed(s, id, url, now)
    case Sweep(grace, order, now) =>
      Lists(order, Unowed(Pruned(s, grace, now), now)) && t == Swept(s, grace, order, now)
    case Reschedule => Rescheduled(s, t)
  }

  datatype Step =
    | Act(who: Origin, act: Action, said: set<Note>)
    | Ask(who: Origin, to: Origin)
    | Tell(who: Origin, have: Note, reply: Reply)
    | Hear(who: Origin, note: Note, standby: Fact -> Time, now: Time)

  ghost function Remembering(past: History, who: Origin, s: State, t: State, refused: set<Key>): History
    requires who in past.recorded
  {
    History(
      past.issued + (t.rows - (set k | k in t.rows && (k in s.rows || k.slot.origin != who))),
      past.recorded[who := past.recorded[who] + t.rows.Keys],
      past.pruned + (s.rows.Keys - t.rows.Keys),
      past.refused + refused)
  }

  ghost function Moved(c: Cluster, who: Origin, t: State, said: set<Note>, refused: set<Key>): Cluster
    requires who in c.at && who in c.past.recorded
  {
    Cluster(c.at[who := t], c.wire + said, Remembering(c.past, who, c.at[who], t, refused))
  }

  function RefusedIn(rules: Rules, facts: seq<Fact>): set<Key> {
    set f | f in facts && !Proven(rules, f) :: f.Name()
  }

  /** An instance pushes only facts it holds, as it holds them. */
  ghost predicate OwnNews(t: State, said: set<Note>) {
    forall note :: note in said ==>
      && note.Push?
      && (forall f :: f in note.facts ==> f.Name() in t.rows && t.rows[f.Name()] == f)
  }

  ghost predicate Next(w: World, c: Cluster, d: Cluster, step: Step) {
    && step.who in c.at && step.who in c.past.recorded
    && var s := c.at[step.who];
    match step
    case Act(who, act, said) =>
      who in d.at && Acts(s, act, d.at[who]) && OwnNews(d.at[who], said) && d == Moved(c, who, d.at[who], said, {})
    case Ask(who, to) => d == c.(wire := c.wire + {Have(who, to, s.marks)})
    case Tell(who, have, reply) =>
      && have in c.wire && have.Have? && have.to == who && IsReply(s, have.marks, reply)
      && d == c.(wire := c.wire + {Answer(have.asker, reply, have.marks, s.marks)})
    case Hear(who, note, standby, now) =>
      && note in c.wire && !note.Have? && (note.Answer? ==> note.to == who)
      && d == Moved(c, who, Absorbed(w.RulesAt(who), s, note.Facts(), note.Through(), standby, now),
                    {}, RefusedIn(w.RulesAt(who), note.Facts()))
  }

  ghost predicate Start(c: Cluster) {
    && (forall i :: i in c.at ==> c.at[i] == Empty(i))
    && c.wire == {}
    && c.past.issued == map[] && c.past.pruned == {} && c.past.refused == {}
    && c.past.recorded.Keys == c.at.Keys && (forall i :: i in c.at ==> c.past.recorded[i] == {})
  }

  ghost predicate Run(w: World, trace: seq<Cluster>, steps: seq<Step>) {
    && |trace| == |steps| + 1
    && Start(trace[0])
    && forall n :: 0 <= n < |steps| ==> Next(w, trace[n], trace[n + 1], steps[n])
  }

  // ---------------------------------------------------------------- what every run keeps

  ghost predicate Members(c: Cluster) {
    && c.past.recorded.Keys == c.at.Keys
    && (forall i :: i in c.at ==> c.at[i].self == i && Sound(c.at[i]))
  }

  /** Each origin has issued exactly the numbers up to its own mark. */
  ghost predicate IssuedInTurn(c: Cluster) {
    && (forall k :: k in c.past.issued ==>
      k.slot.origin in c.at && 1 <= k.number <= c.Mark(k.slot.origin, k.slot))
    && (forall i, slot: Slot, n :: i in c.at && slot.origin == i && 1 <= n <= c.Mark(i, slot) ==>
      Key(slot, n) in c.past.issued)
  }

  ghost predicate AsIssued(past: History, f: Fact) {
    f.Name() in past.issued && past.issued[f.Name()] == f
  }

  /** A row reads the same wherever it is held: as its origin wrote it. */
  ghost predicate Immutable(c: Cluster) {
    forall i, k :: i in c.at && k in c.at[i].rows ==> k in c.past.issued && c.past.issued[k] == c.at[i].rows[k]
  }

  ghost predicate WithinOrigin(c: Cluster, slot: Slot, n: nat) {
    n > 0 ==> slot.origin in c.at && n <= c.Mark(slot.origin, slot)
  }

  /** No instance claims to have seen more of an origin than that origin has written. */
  ghost predicate BehindOrigin(c: Cluster) {
    forall i, slot :: i in c.at ==> WithinOrigin(c, slot, c.Mark(i, slot))
  }

  /** Every number at or below a mark was recorded there once, or is gone for a reason. */
  ghost predicate NothingMissed(c: Cluster) {
    forall i, slot, n :: i in c.at && i in c.past.recorded && 1 <= n <= c.Mark(i, slot) ==>
      Key(slot, n) in c.past.recorded[i] || c.Gone(Key(slot, n))
  }

  /** What was recorded is still held, unless a sweep took it. */
  ghost predicate NothingDropped(c: Cluster) {
    forall i :: i in c.at && i in c.past.recorded ==>
      && (forall k :: k in c.past.recorded[i] ==> k in c.at[i].rows || k in c.past.pruned)
      && c.at[i].rows.Keys <= c.past.recorded[i]
  }

  ghost predicate Honest(c: Cluster, note: Note) {
    match note
    case Push(facts) => forall f :: f in facts ==> AsIssued(c.past, f)
    case Have(asker, _, marks) => asker in c.at ==> forall slot :: MarkIn(marks, slot) <= c.Mark(asker, slot)
    case Answer(to, reply, asked, sender) =>
      && (forall f :: f in reply.facts ==> AsIssued(c.past, f))
      && (to in c.at ==> forall slot :: MarkIn(asked, slot) <= c.Mark(to, slot))
      && (forall slot :: WithinOrigin(c, slot, MarkIn(sender, slot)))
      && (forall slot :: slot in reply.through ==> reply.through[slot] <= MarkIn(sender, slot))
      && (forall slot, n :: slot in reply.through && MarkIn(asked, slot) < n <= reply.through[slot] ==>
        (exists f :: f in reply.facts && f.Name() == Key(slot, n)) || c.Gone(Key(slot, n)))
      && (!reply.more ==> forall slot ::
        || MarkIn(sender, slot) <= MarkIn(asked, slot)
        || (slot in reply.through && reply.through[slot] == MarkIn(sender, slot)))
  }

  ghost predicate Inv(c: Cluster) {
    && Members(c) && IssuedInTurn(c) && Immutable(c) && BehindOrigin(c) && NothingMissed(c) && NothingDropped(c)
    && forall note :: note in c.wire ==> Honest(c, note)
  }
}
