/** The worklist of every instance in every run of a cluster. */
module WorklistRuns {
  import opened Options
  import opened Facts
  import opened LedgerState
  import opened Replication
  import opened Clusters
  import opened ClusterSafety
  import opened ClusterRuns
  import opened Worklist

  lemma ActKeepsWorklist(s: State, act: Action, t: State)
    requires Sound(s) && Acts(s, act, t) && Watchful(s) && Consistent(s)
    ensures Watchful(t) && Consistent(t)
    ensures Complete(s) && Agreed(s) ==> Complete(t)
  {
    hide Sound, Watchful, Consistent, Complete, Agreed, Prunes, Issues;
    hide Taken, Opened, Landed, Pruned, OwedEvery, Read, PaidIds, AcceptedPairs;
    match act
    case Insert(payment, dueAt, now) => TakenKeeps(s, payment, dueAt, now);
    case Pay(id, opens, now) =>
      if s.Settled(id) {
        ForgettingTheSettled(s, id);
      } else if Read(s, id).Some? {
        OpenedKeeps(s, Read(s, id).value, now);
      }
    case Deliver(id, url, now) => LandedKeeps(s, id, url, now);
    case Sweep(grace, order, now) =>
      var p := Pruned(s, grace, now);
      PrunedPrunes(s, grace, now);
      PrunedKeepsWatchful(s, grace, now);
      OwedEveryKeepsBooks(p, order, now);
      SameBooks(p, t);
      if Complete(s) && Agreed(s) { PrunedKeepsComplete(s, grace, now); }
    case Reschedule =>
      RescheduledKeeps(s, t);
      SameRowsConsistent(s, t);
  }

  lemma ForgettingTheSettled(s: State, id: Id)
    requires Watchful(s) && Consistent(s) && s.Settled(id)
    ensures Watchful(Forgotten(s, id)) && Consistent(Forgotten(s, id))
    ensures Complete(s) ==> Complete(Forgotten(s, id))
  {
    SettledIsPaid(s, id);
  }

  lemma NextKeepsWorklist(w: World, c: Cluster, d: Cluster, step: Step, i: Origin)
    requires Inv(c) && Next(w, c, d, step) && i in c.at && i in d.at
    requires Watchful(c.at[i]) && Consistent(c.at[i])
    ensures Watchful(d.at[i]) && Consistent(d.at[i])
    ensures Complete(c.at[i]) && Agreed(c.at[i]) ==> Complete(d.at[i])
  {
    hide Sound, Acts, Absorbed, IsReply, OwnNews, Watchful, Consistent, Complete, Agreed;
    hide IssuedInTurn, Immutable, BehindOrigin, NothingMissed, NothingDropped, Honest;
    var s := c.at[step.who];
    match step
    case Act(who, act, said) =>
      if i == who { ActKeepsWorklist(s, act, d.at[who]); }
    case Ask(_, _) =>
    case Tell(_, _, _) =>
    case Hear(who, note, standby, now) =>
      if i == who { AbsorbedKeeps(w.RulesAt(who), s, note.Facts(), note.Through(), standby, now); }
  }

  /**
   In every reachable state nothing is both watched and settled, and every watch has the accepted row
   it is for.
   */
  lemma {:induction false} EveryRunKeepsWorklist(w: World, trace: seq<Cluster>, steps: seq<Step>, n: nat, i: Origin)
    requires Run(w, trace, steps) && n < |trace| && i in trace[n].at
    ensures Watchful(trace[n].at[i]) && Consistent(trace[n].at[i])
    ensures (forall m :: 0 <= m < n ==> i in trace[m].at && Agreed(trace[m].at[i])) ==> Complete(trace[n].at[i])
  {
    hide Next, Inv, Watchful, Consistent, Complete, Agreed;
    if n == 0 {
      EmptyWorklist(trace[0], i);
    } else {
      MembersStay(w, trace, steps, n);
      MembersStay(w, trace, steps, n - 1);
      EveryRunKeepsWorklist(w, trace, steps, n - 1, i);
      NextKeepsWorklist(w, trace[n - 1], trace[n], steps[n - 1], i);
    }
  }

  lemma EmptyWorklist(c: Cluster, i: Origin)
    requires Start(c) && i in c.at
    ensures Watchful(c.at[i]) && Consistent(c.at[i]) && Complete(c.at[i])
  {
  }

  /** So every payment a poll is leased for can be read. */
  lemma WatchedIsReadable(w: World, trace: seq<Cluster>, steps: seq<Step>, n: nat, i: Origin, id: Id)
    requires Run(w, trace, steps) && n < |trace| && i in trace[n].at && id in trace[n].at[i].schedule
    ensures Read(trace[n].at[i], id).Some? && Read(trace[n].at[i], id).value.id == id
  {
    hide Next, Inv;
    EveryRunKeepsWorklist(w, trace, steps, n, i);
    var s := trace[n].at[i];
    AcceptedIsReadable(s, id, s.schedule[id].expiresAt);
    ReadWasAccepted(s, id);
  }
}
