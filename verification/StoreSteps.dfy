/**
 What a store does, says and hears are steps of the cluster it belongs to, so what holds of every run
 holds of it.
 */
module StoreSteps {
  import opened Options
  import opened Facts
  import opened LedgerState
  import opened Replication
  import opened CatchUp
  import opened Clusters
  import opened Pushes
  import S = Stores

  /** Whatever an instance does and announces is a step a cluster may take. */
  lemma AnnouncingIsAStep(
    w: World, c: Cluster, who: Origin, act: Action, t: State, before: seq<S.Message>, after: seq<S.Message>)
    returns (d: Cluster, said: set<Note>)
    requires who in c.at && who in c.past.recorded
    requires Acts(c.at[who], act, t) && S.Announces(c.at[who], t, before, after)
    ensures Next(w, c, d, Step.Act(who, act, said)) && d.at == c.at[who := t]
    ensures (after == before && said == {})
      || (exists told :: after == before + [S.Message.News(told, false, None)] && said == {Push(told)})
  {
    hide Acts;
    said := {};
    if after != before {
      var told :| after == before + [S.Message.News(told, false, None)] && Tells(c.at[who], t, told);
      said := {Push(told)};
    }
    d := Moved(c, who, t, said, {});
  }

  /** And so is whatever it hears. */
  lemma HearingIsAStep(w: World, c: Cluster, who: Origin, note: Note, standby: Fact -> Time, now: Time, t: State)
    returns (d: Cluster)
    requires who in c.at && who in c.past.recorded && note in c.wire && !note.Have? && (note.Answer? ==> note.to == who)
    requires t == Absorbed(w.RulesAt(who), c.at[who], note.Facts(), note.Through(), standby, now)
    ensures Next(w, c, d, Step.Hear(who, note, standby, now)) && d.at == c.at[who := t]
  {
    hide Absorbed;
    d := Moved(c, who, t, {}, RefusedIn(w.RulesAt(who), note.Facts()));
  }

  /**
   `Receive`, of what another instance pushed on going from `s` to `t`: the store counts itself
   converged there and then, and is caught up with the pusher exactly when it was before.
   */
  method ReceivePushed(
    store: S.Store, from: Origin, told: seq<Fact>, now: Time, ghost s: State, ghost t: State)
    returns (reply: Option<S.Message>)
    requires store.Valid() && Closed(store.ledger.Now())
    requires Sound(s) && Issues(s, t) && Tells(s, t, told)
    requires forall f :: f in told ==> Proven(store.ledger.rules, f)
    modifies store`convergedAt, store.ledger
    ensures store.convergedAt == Some(now) && reply.None?
    ensures Dominates(store.ledger.Now().marks, t.marks) <==> Dominates(old(store.ledger.Now()).marks, s.marks)
  {
    hide Absorbed, Sound, Issues, Tells, Proven, Closed, Dominates;
    ghost var r := store.ledger.Now();
    reply := store.Receive(S.Message.News(told, false, None), from, now);
    assert Pushed(store.ledger.rules, s, t, told, r, store.ledger.Now());
    PushCatchesUpTheCaughtUp(store.ledger.rules, s, t, told, r, store.ledger.Now());
  }
}
