/** Nothing an instance writes is refused by another that finds it genuine. */
module Honesty {
  import opened Options
  import opened Facts
  import opened LedgerState
  import opened Replication
  import opened Clusters
  import opened ClusterSafety
  import opened ClusterRuns
  import opened Writing
  import W = Webhooks

  /** A fact carries a payment of the id, and if it accepts it of the expiry, that it names itself. */
  ghost predicate WellNamed(f: Fact) {
    && (f.AcceptedFact? ==> f.payment.id == f.id && f.payment.expiresAt == f.expiresAt)
    && (f.PaidFact? ==> f.payment.id == f.id)
  }

  ghost predicate AllWellNamed(rows: map<Key, Fact>) {
    forall k :: k in rows ==> WellNamed(rows[k])
  }

  lemma ToldWellNamed(s: State, t: State, told: seq<Fact>)
    requires AllWellNamed(s.rows) && Tells(s, t, told) && forall f :: f in told ==> WellNamed(f)
    ensures AllWellNamed(t.rows)
  {
  }

  lemma InsertWritesWellNamed(s: State, payment: Payment, dueAt: Time, now: Time)
    requires Sound(s) && AllWellNamed(s.rows)
    ensures AllWellNamed(Inserted(s, payment, dueAt, now).rows)
  {
    hide Sound, Taken, Tells, Read, AllWellNamed, AsksForMore;
    var t := Taken(s, payment, dueAt, now);
    TakingWrites(s, payment, dueAt, now);
    if urls :| Tells(s, t, [Accepts(s, payment, urls, now)]) {
      ToldWellNamed(s, t, [Accepts(s, payment, urls, now)]);
    }
  }

  lemma SettlingWritesWellNamed(s: State, id: Id, opens: bool, now: Time)
    requires Sound(s) && AllWellNamed(s.rows)
    ensures AllWellNamed(Settling(s, id, opens, now).rows)
  {
    hide Sound, Opened, Tells, Read, AllWellNamed, State.Settled;
    if Read(s, id).Some? {
      var watched := Read(s, id).value;
      var settled := watched.(webhooks := []);
      var paid := PaidFact(s.self, OwnMark(s, Paid) + 1, watched.id, settled, now);
      var hooks := HookRows(s.self, OwnMark(s, Outbox), watched.id, watched.webhooks, Body(settled, now), now);
      SettlingWrites(s, watched, now);
      ToldWellNamed(s, Opened(s, watched, now), [paid] + hooks);
    }
  }

  lemma LandingWritesWellNamed(s: State, id: Id, url: Url, now: Time)
    requires Sound(s) && AllWellNamed(s.rows)
    ensures AllWellNamed(Landed(s, id, url, now).rows)
  {
    hide Sound, Landed, Tells, AllWellNamed;
    LandingWrites(s, id, url, now);
    ToldWellNamed(s, Landed(s, id, url, now), [DeliveredFact(s.self, OwnMark(s, Delivered) + 1, id, url, now)]);
  }

  lemma SweepWritesWellNamed(s: State, grace: nat, order: seq<Missing>, now: Time)
    requires Sound(s) && AllWellNamed(s.rows) && Lists(order, Unowed(Pruned(s, grace, now), now))
    ensures AllWellNamed(Swept(s, grace, order, now).rows)
  {
    hide Sound, Pruned, OwedEvery, Unowed, W.EveryListedAnswered;
    PrunedPrunes(s, grace, now);
    W.SweepOwesEveryWebhook(s, grace, order, now);
  }

  lemma ActWritesWellNamed(s: State, act: Action, t: State)
    requires Sound(s) && Acts(s, act, t) && AllWellNamed(s.rows)
    ensures AllWellNamed(t.rows)
  {
    hide Sound, Inserted, Settling, Landed, Swept, Pruned, Unowed;
    match act
    case Insert(payment, dueAt, now) => InsertWritesWellNamed(s, payment, dueAt, now);
    case Pay(id, opens, now) => SettlingWritesWellNamed(s, id, opens, now);
    case Deliver(id, url, now) => LandingWritesWellNamed(s, id, url, now);
    case Sweep(grace, order, now) => SweepWritesWellNamed(s, grace, order, now);
    case Reschedule =>
  }

  lemma HeardWellNamed(rules: Rules, s: State, t: State, facts: seq<Fact>)
    requires AllWellNamed(s.rows) && AbsorbsOnly(rules, s, t, facts)
    ensures AllWellNamed(t.rows)
  {
  }

  ghost predicate Trusted(c: Cluster) {
    AllWellNamed(c.past.issued) && c.past.refused == {}
  }

  lemma HeldIsWellNamed(c: Cluster, i: Origin)
    requires Immutable(c) && AllWellNamed(c.past.issued) && i in c.at
    ensures AllWellNamed(c.at[i].rows)
  {
    forall k | k in c.at[i].rows ensures WellNamed(c.at[i].rows[k]) {
      assert k in c.past.issued && c.past.issued[k] == c.at[i].rows[k];
    }
  }

  /** What is remembered of a step as issued was issued before or is held after it. */
  lemma RememberedWellNamed(c: Cluster, who: Origin, t: State, said: set<Note>, refused: set<Key>)
    requires who in c.at && who in c.past.recorded && AllWellNamed(c.past.issued) && AllWellNamed(t.rows)
    ensures AllWellNamed(Moved(c, who, t, said, refused).past.issued)
  {
  }

  lemma NothingToRefuse(c: Cluster, rules: Rules, note: Note)
    requires Honest(c, note) && AllWellNamed(c.past.issued) && forall f :: rules.genuine(f)
    ensures RefusedIn(rules, note.Facts()) == {}
  {
    hide Honest;
    forall f | f in note.Facts() ensures Proven(rules, f) { HonestFacts(c, note, f); }
  }

  lemma NextStaysTrusted(w: World, c: Cluster, d: Cluster, step: Step)
    requires Inv(c) && Trusted(c) && Next(w, c, d, step) && forall f :: w.genuine(f)
    ensures Trusted(d)
    ensures step.Hear? ==> RefusedIn(w.RulesAt(step.who), step.note.Facts()) == {}
  {
    hide Sound, Acts, Absorbed, IsReply, OwnNews, AllWellNamed, RefusedIn, AbsorbsOnly, BringsAll, AbsorbsMarks;
    hide IssuedInTurn, Immutable, BehindOrigin, NothingMissed, NothingDropped, Honest;
    match step
    case Act(who, act, said) =>
      HeldIsWellNamed(c, who);
      ActWritesWellNamed(c.at[who], act, d.at[who]);
      RememberedWellNamed(c, who, d.at[who], said, {});
    case Ask(_, _) =>
    case Tell(_, _, _) =>
    case Hear(who, note, standby, now) =>
      var rules, s := w.RulesAt(who), c.at[who];
      var t := Absorbed(rules, s, note.Facts(), note.Through(), standby, now);
      HeldIsWellNamed(c, who);
      AbsorbedEffect(rules, s, note.Facts(), note.Through(), standby, now);
      HeardWellNamed(rules, s, t, note.Facts());
      RememberedWellNamed(c, who, t, {}, RefusedIn(rules, note.Facts()));
      NothingToRefuse(c, rules, note);
  }

  lemma {:induction false} EveryRunIsTrusted(w: World, trace: seq<Cluster>, steps: seq<Step>, n: nat)
    requires Run(w, trace, steps) && n < |trace| && forall f :: w.genuine(f)
    ensures Trusted(trace[n])
  {
    hide Next, Inv;
    if n > 0 {
      EveryRunIsTrusted(w, trace, steps, n - 1);
      EveryRunKeepsInv(w, trace, steps, n - 1);
      NextStaysTrusted(w, trace[n - 1], trace[n], steps[n - 1]);
    }
  }

  /**
   The theorem: where what is written is found genuine, no fact is ever refused anywhere, so each number at
   or below a mark was held there once or was swept somewhere.
   */
  lemma NothingWrittenIsRefused(
    w: World, trace: seq<Cluster>, steps: seq<Step>, n: nat, i: Origin, slot: Slot, number: nat)
    requires Run(w, trace, steps) && n < |trace| && forall f :: w.genuine(f)
    ensures forall k :: !RefusedSomewhere(w, steps, n, k)
    ensures i in trace[n].at && 1 <= number <= trace[n].Mark(i, slot) ==>
      EverHeld(trace, n, i, Key(slot, number)) || SweptSomewhere(trace, steps, n, Key(slot, number))
  {
    hide Next, Inv, EverHeld, SweptSomewhere;
    forall k, m: nat | m < n ensures !Refuses(w, steps[m], k) {
      EveryRunIsTrusted(w, trace, steps, m);
      EveryRunKeepsInv(w, trace, steps, m);
      NextStaysTrusted(w, trace[m], trace[m + 1], steps[m]);
      if steps[m].Hear? { RefusesTheRefused(w, steps[m], k); }
    }
    if i in trace[n].at && 1 <= number <= trace[n].Mark(i, slot) {
      NoSilentLoss(w, trace, steps, n, i, slot, number);
    }
  }

  lemma RefusesTheRefused(w: World, step: Step, k: Key)
    requires step.Hear?
    ensures Refuses(w, step, k) <==> k in RefusedIn(w.RulesAt(step.who), step.note.Facts())
  {
  }
}
