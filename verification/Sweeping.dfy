/** The sweep's statements run one after another and delete, between them, exactly what `Outlived` says. */
module Sweeping {
  import opened Options
  import opened Facts
  import opened LedgerState

  function LateAccepted(s: State, cut: int): set<Key> {
    set k | k in s.rows && s.rows[k].AcceptedFact? && s.rows[k].expiresAt <= cut
  }

  function SettledAccepted(s: State, cut: int): set<Key> {
    set k | k in s.rows && s.rows[k].AcceptedFact? && SettledBy(s.rows, s.rows[k].id, cut)
  }

  function SpentOutbox(s: State, cut: int): set<Key> {
    set k | k in s.rows && s.rows[k].OutboxFact?
      && ((k in s.tries && s.tries[k].dueAt.None? && s.tries[k].parkedAt.Or(s.rows[k].owedAt) <= cut)
          || (s.rows[k].owedAt <= cut && s.HasRow(Delivered, s.rows[k].id, s.rows[k].url)))
  }

  function SurplusPaid(s: State, cut: int): set<Key> {
    set k | k in s.rows && s.rows[k].PaidFact? && s.rows[k].settledAt <= cut && BeyondReplay(s.rows, s.rows[k].id)
  }

  function OldDelivered(s: State, cut: int): set<Key> {
    set k | k in s.rows && s.rows[k].DeliveredFact? && s.rows[k].deliveredAt <= cut
  }

  ghost predicate OnlyOf(rows: map<Key, Fact>, keys: set<Key>, table: Source) {
    forall k :: k in keys ==> k in rows && rows[k].Table() == table
  }

  lemma SettledByOthers(rows: map<Key, Fact>, keys: set<Key>, table: Source, id: Id, cut: int)
    requires OnlyOf(rows, keys, table) && table != Paid
    ensures SettledBy(rows - keys, id, cut) == SettledBy(rows, id, cut)
  {
    if SettledBy(rows, id, cut) {
      var k :| k in rows && rows[k].PaidFact? && rows[k].id == id && rows[k].settledAt <= cut;
      assert k in rows - keys;
    }
  }

  lemma BeyondReplayOthers(rows: map<Key, Fact>, keys: set<Key>, table: Source, id: Id)
    requires OnlyOf(rows, keys, table) && table != Paid
    ensures BeyondReplay(rows - keys, id) == BeyondReplay(rows, id)
  {
    forall k | k in rows && rows[k].PaidFact?
      ensures k in rows - keys && Nth(rows - keys, rows[k]) == Nth(rows, rows[k])
    {
      assert NewerRows(rows - keys, rows[k]) == NewerRows(rows, rows[k]);
    }
  }

  lemma HasRowOthers(s: State, keys: set<Key>, table: Source, id: Id, url: Url)
    requires OnlyOf(s.rows, keys, table) && table != Delivered
    ensures Dropped(s, keys).HasRow(Delivered, id, url) == s.HasRow(Delivered, id, url)
  {
    if s.HasRow(Delivered, id, url) {
      var k :| k in s.rows && s.rows[k].Table() == Delivered && s.rows[k].id == id && s.rows[k].url == url;
      assert k in Dropped(s, keys).rows;
    }
  }

  /** Deleting rows of one table leaves alone what decides about the rows of a table swept later. */
  lemma LaterTablesUnmoved(s: State, keys: set<Key>, table: Source, cut: int)
    requires OnlyOf(s.rows, keys, table)
    ensures table.Accepted? ==> SettledAccepted(Dropped(s, keys), cut) == SettledAccepted(s, cut) - keys
    ensures table.Accepted? ==> SpentOutbox(Dropped(s, keys), cut) == SpentOutbox(s, cut)
    ensures table != Paid ==> SurplusPaid(Dropped(s, keys), cut) == SurplusPaid(s, cut)
    ensures table != Delivered ==> OldDelivered(Dropped(s, keys), cut) == OldDelivered(s, cut)
  {
    hide SettledBy, BeyondReplay, State.HasRow;
    forall id | table != Paid ensures SettledBy(s.rows - keys, id, cut) == SettledBy(s.rows, id, cut) {
      SettledByOthers(s.rows, keys, table, id, cut);
    }
    forall id | table != Paid ensures BeyondReplay(s.rows - keys, id) == BeyondReplay(s.rows, id) {
      BeyondReplayOthers(s.rows, keys, table, id);
    }
    forall id, url | table != Delivered
      ensures Dropped(s, keys).HasRow(Delivered, id, url) == s.HasRow(Delivered, id, url)
    {
      HasRowOthers(s, keys, table, id, url);
    }
  }

  lemma DroppedTwice(s: State, one: set<Key>, two: set<Key>)
    ensures Dropped(Dropped(s, one), two) == Dropped(s, one + two)
  {
    assert s.rows - one - two == s.rows - (one + two);
    assert s.heard - one - two == s.heard - (one + two);
    assert s.tries - one - two == s.tries - (one + two);
  }

  lemma LateTableByTable(s: State, cut: int)
    ensures Late(s, cut)
      == LateAccepted(s, cut) + SettledAccepted(s, cut) + SpentOutbox(s, cut)
        + SurplusPaid(s, cut) + OldDelivered(s, cut)
  {
    hide SettledBy, BeyondReplay, State.HasRow;
  }

  function DeletedInTurn(s: State, cut: int): State {
    var a := Dropped(s, LateAccepted(s, cut));
    var b := Dropped(a, SettledAccepted(a, cut));
    var c := Dropped(b, SpentOutbox(b, cut));
    var d := Dropped(c, SurplusPaid(c, cut));
    Dropped(d, OldDelivered(d, cut))
  }

  /**
   The five statements in their order delete the rows that had outlived their use when the sweep
   began, and no others.
   */
  lemma DeletedInTurnIsPruned(s: State, cut: int)
    ensures DeletedInTurn(s, cut) == Dropped(s, Late(s, cut))
  {
    hide Dropped, Late;
    var a := Dropped(s, LateAccepted(s, cut));
    var b := Dropped(a, SettledAccepted(a, cut));
    var c := Dropped(b, SpentOutbox(b, cut));
    var d := Dropped(c, SurplusPaid(c, cut));
    DeletesOneTableEach(s, cut);
    DeletesOneTableEach(a, cut);
    DeletesOneTableEach(b, cut);
    DeletesOneTableEach(c, cut);
    LaterTablesUnmoved(s, LateAccepted(s, cut), Accepted, cut);
    LaterTablesUnmoved(a, SettledAccepted(a, cut), Accepted, cut);
    LaterTablesUnmoved(b, SpentOutbox(b, cut), Outbox, cut);
    LaterTablesUnmoved(c, SurplusPaid(c, cut), Paid, cut);
    var one, two := LateAccepted(s, cut), SettledAccepted(a, cut);
    var three, four := SpentOutbox(b, cut), SurplusPaid(c, cut);
    DroppedTwice(s, one, two);
    DroppedTwice(s, one + two, three);
    DroppedTwice(s, one + two + three, four);
    DroppedTwice(s, one + two + three + four, OldDelivered(d, cut));
    LateTableByTable(s, cut);
    InTurn(s, a, b, c, d, cut);
  }

  lemma InTurn(s: State, a: State, b: State, c: State, d: State, cut: int)
    requires SettledAccepted(a, cut) == SettledAccepted(s, cut) - LateAccepted(s, cut)
    requires SpentOutbox(a, cut) == SpentOutbox(s, cut) && SpentOutbox(b, cut) == SpentOutbox(a, cut)
    requires SurplusPaid(a, cut) == SurplusPaid(s, cut) && SurplusPaid(b, cut) == SurplusPaid(a, cut)
    requires SurplusPaid(c, cut) == SurplusPaid(b, cut)
    requires OldDelivered(a, cut) == OldDelivered(s, cut) && OldDelivered(b, cut) == OldDelivered(a, cut)
    requires OldDelivered(c, cut) == OldDelivered(b, cut) && OldDelivered(d, cut) == OldDelivered(c, cut)
    ensures LateAccepted(s, cut) + SettledAccepted(a, cut) + SpentOutbox(b, cut)
        + SurplusPaid(c, cut) + OldDelivered(d, cut)
      == LateAccepted(s, cut) + SettledAccepted(s, cut) + SpentOutbox(s, cut)
        + SurplusPaid(s, cut) + OldDelivered(s, cut)
  {
    hide LateAccepted, SettledAccepted, SpentOutbox, SurplusPaid, OldDelivered;
  }

  lemma DeletesOneTableEach(s: State, cut: int)
    ensures OnlyOf(s.rows, LateAccepted(s, cut), Accepted) && OnlyOf(s.rows, SettledAccepted(s, cut), Accepted)
    ensures OnlyOf(s.rows, SpentOutbox(s, cut), Outbox) && OnlyOf(s.rows, SurplusPaid(s, cut), Paid)
    ensures OnlyOf(s.rows, OldDelivered(s, cut), Delivered)
  {
    hide SettledBy, BeyondReplay, State.HasRow;
  }

  lemma LateIgnoresWorklist(s: State, schedule: map<Id, Watch>, cut: int)
    ensures Late(s.(schedule := schedule), cut) == Late(s, cut)
  {
    hide SettledBy, BeyondReplay;
    var t := s.(schedule := schedule);
    assert forall id, url :: t.HasRow(Delivered, id, url) == s.HasRow(Delivered, id, url);
  }

  /** The whole of the sweep's deletions, statement by statement. */
  lemma StatementsPrune(s: State, t: State, grace: nat, now: Time)
    requires var schedule := MarkedExpired(s.schedule, now) - Ended(s.schedule, now - grace);
      t == DeletedInTurn(s.(schedule := schedule), now - grace)
    ensures t == Pruned(s, grace, now)
  {
    hide DeletedInTurn, Late;
    var cut := now - grace;
    var schedule := MarkedExpired(s.schedule, now) - Ended(s.schedule, cut);
    DeletedInTurnIsPruned(s.(schedule := schedule), cut);
    LateIgnoresWorklist(s, schedule, cut);
  }

  lemma EndedStaysEnded(schedule: map<Id, Watch>, now: Time, cut: int)
    ensures Ended(MarkedExpired(schedule, now), cut) == Ended(schedule, cut)
  {
  }

  // ---------------------------------------------------------------- owing what nobody owes

  lemma {:induction false} OwedEveryThenOne(s: State, order: seq<Missing>, last: Missing, now: Time)
    ensures OwedEvery(s, order + [last], now) == OwedMissing(OwedEvery(s, order, now), last, now)
    decreases |order|
  {
    hide OwedMissing;
    if order == [] {
      assert order + [last] == [last];
    } else {
      assert (order + [last])[1..] == order[1..] + [last];
      OwedEveryThenOne(OwedMissing(s, order[0], now), order[1..], last, now);
    }
  }
}
