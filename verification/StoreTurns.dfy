/**
 Whose turn it is, of the stores themselves: of instances that see one another and rank payments alike,
 exactly one is due first.
 */
module StoreTurns {
  import opened Options
  import opened Facts
  import opened Turns
  import opened Polling
  import opened Stores

  ghost function Origins(stores: set<Store>): set<Origin> {
    set store | store in stores :: store.ledger.origin
  }

  /** Instances of one cluster: each its own origin, one ranking and one eager delay, and each sees all the others. */
  ghost predicate Fellows(stores: set<Store>, standing: Standing, eagerMs: real)
    reads stores
  {
    && (forall store :: store in stores ==>
      && store.Valid() && store.standing == standing && store.eagerMs == eagerMs
      && store.peers == Origins(stores) - {store.ledger.origin})
    && (forall one, other :: one in stores && other in stores && one.ledger.origin == other.ledger.origin ==>
      one == other)
  }

  /** None of them has an agent that answers for this URL by itself. */
  ghost predicate NoneAlone(stores: set<Store>, verifyUrl: string)
    reads stores
  {
    forall store :: store in stores ==> !store.answersAlone(verifyUrl)
  }

  lemma StoreOf(stores: set<Store>, origin: Origin) returns (store: Store)
    requires origin in Origins(stores)
    ensures store in stores && store.ledger.origin == origin
  {
    store :| store in stores && store.ledger.origin == origin;
  }

  lemma RankIs(stores: set<Store>, standing: Standing, eagerMs: real, store: Store, id: Id, verifyUrl: string)
    requires Fellows(stores, standing, eagerMs) && NoneAlone(stores, verifyUrl) && store in stores
    ensures store.ledger.origin in Origins(stores)
    ensures store.RankOf(id, verifyUrl, store.peers)
      == Rank(standing, id, store.ledger.origin, Origins(stores) - {store.ledger.origin})
  {
  }

  lemma FellowIs(stores: set<Store>, standing: Standing, eagerMs: real, store: Store)
    requires Fellows(stores, standing, eagerMs) && store in stores
    ensures store.Valid() && store.standing == standing && store.eagerMs == eagerMs
  {
  }

  /** One store is due at `next`, and every other a wait later or more. */
  ghost predicate OneIsDue(stores: set<Store>, due: map<Store, Time>, next: Time, wait: nat)
    requires due.Keys == stores
  {
    exists first :: first in stores && due[first] == next
      && forall other :: other in stores && other != first ==> next + wait <= due[other]
  }

  lemma TurnsPickOne(
    stores: set<Store>, standing: Standing, eagerMs: real, id: Id, verifyUrl: string, due: map<Store, Time>,
    next: Time, gap: real)
    requires Fellows(stores, standing, eagerMs) && NoneAlone(stores, verifyUrl) && stores != {}
    requires Distinct(standing, id, Origins(stores)) && due.Keys == stores
    requires forall store :: store in stores ==> due[store] == Turn(store.RankOf(id, verifyUrl, store.peers), next, gap)
    ensures OneIsDue(stores, due, next, Wait(gap))
  {
    hide Fellows, NoneAlone;
    var all := Origins(stores);
    var some :| some in stores;
    assert some.ledger.origin in all;
    OneTurnInTheFirstWait(standing, id, all, next, gap);
    var origin :| HasFirstWait(standing, id, all, next, gap, origin);
    var first := StoreOf(stores, origin);
    RankIs(stores, standing, eagerMs, first, id, verifyUrl);
    forall other | other in stores && other != first ensures next + Wait(gap) <= due[other] {
      RankIs(stores, standing, eagerMs, other, id, verifyUrl);
      Apart(stores, standing, eagerMs, first, other);
    }
  }

  lemma Apart(stores: set<Store>, standing: Standing, eagerMs: real, one: Store, other: Store)
    requires Fellows(stores, standing, eagerMs) && one in stores && other in stores && one != other
    ensures one.ledger.origin != other.ledger.origin
  {
  }

  // ---------------------------------------------------------------- taking on, polling, missing

  /**
   A payment none answers alone, that each takes on at one moment: one store polls it at once, and every
   other a wait later or more.
   */
  lemma InsertGivesOneTurn(
    stores: set<Store>, standing: Standing, eagerMs: real, payment: Payment, now: Time, due: map<Store, Time>)
    requires Fellows(stores, standing, eagerMs) && NoneAlone(stores, payment.verifyUrl) && stores != {}
    requires Distinct(standing, payment.id, Origins(stores)) && due.Keys == stores
    requires forall store :: store in stores ==> due[store] == store.DueOnInsert(payment.id, payment.verifyUrl, now)
    ensures OneIsDue(stores, due, now, Wait(eagerMs / 1000.0))
  {
    TurnsPickOne(stores, standing, eagerMs, payment.id, payment.verifyUrl, due, now, eagerMs / 1000.0);
  }

  /** So it is when one takes it on and the others hear of it within the first interval, each when it does. */
  lemma HearingGivesOneTurn(
    stores: set<Store>, standing: Standing, eagerMs: real, fact: Fact, heardAt: map<Store, Time>,
    due: map<Store, Time>)
    requires Fellows(stores, standing, eagerMs) && fact.AcceptedFact? && NoneAlone(stores, fact.payment.verifyUrl)
    requires stores != {} && Distinct(standing, fact.id, Origins(stores))
    requires due.Keys == stores == heardAt.Keys
    requires forall store :: store in stores ==>
      && heardAt[store] - fact.acceptedAt < EAGER_WINDOW_SECS
      && (heardAt[store] - fact.acceptedAt) as real < eagerMs / 1000.0
      && (due[store] == store.DueOnInsert(fact.id, fact.payment.verifyUrl, fact.acceptedAt)
          || due[store] == store.StandbyAt(heardAt[store])(fact))
    ensures OneIsDue(stores, due, fact.acceptedAt, Wait(eagerMs / 1000.0))
  {
    hide Fellows, NoneAlone, Distinct, OneIsDue, Turn, StandbyDue, Store.RankOf;
    var id, verifyUrl := fact.id, fact.payment.verifyUrl;
    forall store | store in stores
      ensures due[store] == Turn(store.RankOf(id, verifyUrl, store.peers), fact.acceptedAt, eagerMs / 1000.0)
    {
      FellowIs(stores, standing, eagerMs, store);
      CopiesJoinTheFirstTurn(
        store.RankOf(id, verifyUrl, store.peers), eagerMs, fact.acceptedAt, heardAt[store]);
    }
    TurnsPickOne(stores, standing, eagerMs, id, verifyUrl, due, fact.acceptedAt, eagerMs / 1000.0);
  }

  /** After a poll that says when the next is, one store is due just then, and every other a wait later or more. */
  lemma PollGivesOneTurn(
    stores: set<Store>, standing: Standing, eagerMs: real, payment: Payment, next: Time, now: Time,
    due: map<Store, Time>)
    requires Fellows(stores, standing, eagerMs) && NoneAlone(stores, payment.verifyUrl) && stores != {}
    requires Distinct(standing, payment.id, Origins(stores)) && due.Keys == stores
    requires forall store :: store in stores ==>
      store.DueAfterPoll(payment.id, payment.verifyUrl, Some(next), now) == Some(due[store])
    ensures OneIsDue(stores, due, next, Wait((next - now) as real))
  {
    TurnsPickOne(stores, standing, eagerMs, payment.id, payment.verifyUrl, due, next, (next - now) as real);
  }

  /**
   After a miss exactly one of the others is due at once, unless it was due already; the rest come forward
   to a wait from now at most.
   */
  ghost predicate OneInherits(
    stores: set<Store>, lapsed: Store, was: map<Store, Time>, due: map<Store, Time>, now: Time, wait: nat)
    requires due.Keys == stores == was.Keys
  {
    exists heir :: heir in stores && heir != lapsed && due[heir] == Min(was[heir], now)
      && forall other :: other in stores && other != lapsed && other != heir ==>
           Min(was[other], now + wait) <= due[other] <= was[other]
  }

  lemma MissPassesOn(
    stores: set<Store>, standing: Standing, eagerMs: real, lapsed: Store, payment: Payment, now: Time,
    was: map<Store, Time>, due: map<Store, Time>)
    requires Fellows(stores, standing, eagerMs) && NoneAlone(stores, payment.verifyUrl)
    requires lapsed in stores && stores != {lapsed}
    requires Distinct(standing, payment.id, Origins(stores)) && due.Keys == stores == was.Keys
    requires forall store :: store in stores ==>
      store.DueAfterMiss(payment.id, payment.verifyUrl, lapsed.ledger.origin, now, Some(was[store])) == Some(due[store])
    ensures OneInherits(stores, lapsed, was, due, now, Wait(eagerMs / 1000.0))
  {
    hide Fellows, NoneAlone, Distinct, HasFirstWait, DueAt;
    var gap, id := eagerMs / 1000.0, payment.id;
    var others := Origins(stores) - {lapsed.ledger.origin};
    SomebodyElse(stores, standing, eagerMs, lapsed);
    DistinctWithout(standing, id, Origins(stores), lapsed.ledger.origin);
    OneTurnInTheFirstWait(standing, id, others, now, gap);
    var origin :| HasFirstWait(standing, id, others, now, gap, origin);
    FirstOf(standing, id, others, now, gap, origin);
    var heir := StoreOf(stores, origin);
    forall store | store in stores && store != lapsed
      ensures due[store] == Min(was[store], DueAt(standing, id, others, store.ledger.origin, now, gap))
      ensures store.ledger.origin in others && (store.ledger.origin == origin <==> store == heir)
    {
      TurnAmongOthers(stores, standing, eagerMs, lapsed, payment, now, was[store], store);
      if store != heir { Apart(stores, standing, eagerMs, store, heir); }
    }
    forall store | store in stores && store != lapsed && store != heir
      ensures Min(was[store], now + Wait(gap)) <= due[store] <= was[store]
    {
      FirstBefore(standing, id, others, now, gap, origin, store.ledger.origin);
    }
  }

  lemma SomebodyElse(stores: set<Store>, standing: Standing, eagerMs: real, lapsed: Store)
    requires Fellows(stores, standing, eagerMs) && lapsed in stores && stores != {lapsed}
    ensures Origins(stores) - {lapsed.ledger.origin} != {}
  {
    hide Fellows;
    assert exists store :: store in stores && store != lapsed;
    var store :| store in stores && store != lapsed;
    Apart(stores, standing, eagerMs, store, lapsed);
    assert store.ledger.origin in Origins(stores) - {lapsed.ledger.origin};
  }

  lemma DistinctWithout(standing: Standing, id: Id, all: set<Origin>, gone: Origin)
    requires Distinct(standing, id, all)
    ensures Distinct(standing, id, all - {gone})
  {
  }

  lemma FirstOf(standing: Standing, id: Id, all: set<Origin>, next: Time, gap: real, first: Origin)
    requires HasFirstWait(standing, id, all, next, gap, first)
    ensures first in all && DueAt(standing, id, all, first, next, gap) == next
  {
  }

  lemma FirstBefore(standing: Standing, id: Id, all: set<Origin>, next: Time, gap: real, first: Origin, other: Origin)
    requires HasFirstWait(standing, id, all, next, gap, first) && other in all && other != first
    ensures next + Wait(gap) <= DueAt(standing, id, all, other, next, gap)
  {
  }

  lemma TurnAmongOthers(
    stores: set<Store>, standing: Standing, eagerMs: real, lapsed: Store, payment: Payment, now: Time, was: Time,
    store: Store)
    requires Fellows(stores, standing, eagerMs) && NoneAlone(stores, payment.verifyUrl)
    requires lapsed in stores && store in stores && store != lapsed
    ensures var others, self := Origins(stores) - {lapsed.ledger.origin}, store.ledger.origin;
      && self in others
      && store.DueAfterMiss(payment.id, payment.verifyUrl, lapsed.ledger.origin, now, Some(was))
           == Some(Min(was, DueAt(standing, payment.id, others, self, now, eagerMs / 1000.0)))
  {
    hide Turn, Rank;
    Apart(stores, standing, eagerMs, store, lapsed);
    assert store.peers - {lapsed.ledger.origin}
      == Origins(stores) - {lapsed.ledger.origin} - {store.ledger.origin};
  }

  /** Where a store has an agent that answers alone, it waits for nobody. */
  lemma AloneIsDueAtOnce(store: Store, payment: Payment, next: Time, now: Time, was: Time, missing: Origin)
    requires store.answersAlone(payment.verifyUrl)
    ensures store.DueOnInsert(payment.id, payment.verifyUrl, now) == now
    ensures store.DueAfterPoll(payment.id, payment.verifyUrl, Some(next), now) == Some(next)
    ensures store.DueAfterMiss(payment.id, payment.verifyUrl, missing, now, Some(was)) == Some(Min(was, now))
  {
  }

  /** A payment not to be polled again, or not due at all, stays so. */
  lemma NothingIsDue(store: Store, payment: Payment, now: Time, missing: Origin)
    ensures store.DueAfterPoll(payment.id, payment.verifyUrl, None, now) == None
    ensures store.DueAfterMiss(payment.id, payment.verifyUrl, missing, now, None) == None
  {
  }
}
