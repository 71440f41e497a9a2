/** What a trigger can play back, and that retention never takes it away. */
module Replay {
  import opened Options
  import opened Facts
  import opened LedgerState
  import opened Replication
  import opened Turns

  type Rows = map<Key, Fact>

  ghost predicate Named(rows: Rows) {
    forall k :: k in rows ==> rows[k].Name() == k
  }

  ghost predicate OnePerId(rows: Rows) {
    forall j, k ::
      j in rows && k in rows && rows[j].PaidFact? && rows[k].PaidFact? && rows[j].id == rows[k].id ==> j == k
  }

  /** The settlements of a trigger. */
  ghost function Of(rows: Rows, trigger: string): set<Key> {
    set k | k in rows && rows[k].PaidFact? && rows[k].payment.trigger == Some(trigger)
  }

  /** Those among its newest `limit`. */
  ghost function Latest(rows: Rows, trigger: string, limit: nat): set<Key> {
    set k | k in Of(rows, trigger) && Nth(rows, rows[k]) <= limit
  }

  ghost predicate Plays(rows: Rows, trigger: string, limit: nat, fact: Fact) {
    fact.Name() in Latest(rows, trigger, limit) && rows[fact.Name()] == fact
  }

  ghost predicate OldestFirst(facts: seq<Fact>) {
    && (forall f :: f in facts ==> f.PaidFact?)
    && (forall i, j :: 0 <= i < j < |facts| ==> Newer(facts[j], facts[i]))
  }

  lemma NewerIsTotal(p: Fact, q: Fact)
    requires p.PaidFact? && q.PaidFact?
    ensures p.Name() == q.Name() || Newer(p, q) || Newer(q, p)
    ensures !(Newer(p, q) && Newer(q, p))
  {
  }

  lemma NewerIsTransitive(p: Fact, q: Fact, r: Fact)
    requires p.PaidFact? && q.PaidFact? && r.PaidFact? && Newer(p, q) && Newer(q, r)
    ensures Newer(p, r)
  {
  }

  /** What is newer has fewer rows newer than itself. */
  lemma NewerRanksLower(rows: Rows, j: Key, k: Key)
    requires j in rows && k in rows && rows[j].PaidFact? && rows[k].PaidFact?
    requires rows[j].payment.trigger == rows[k].payment.trigger && Newer(rows[j], rows[k])
    ensures Nth(rows, rows[j]) < Nth(rows, rows[k])
  {
    var a, b := NewerRows(rows, rows[j]), NewerRows(rows, rows[k]);
    forall n | n in a + {j} ensures n in b {
      if n in a { NewerIsTransitive(rows[n], rows[j], rows[k]); }
    }
    SmallerSet(a + {j}, b);
  }

  // ---------------------------------------------------------------- the query

  lemma NewestExists(rows: Rows, keys: set<Key>)
    requires keys != {} && Named(rows)
    requires forall k :: k in keys ==> k in rows && rows[k].PaidFact?
    ensures exists newest :: newest in keys && forall k | k in keys :: k == newest || Newer(rows[newest], rows[k])
  {
    var some :| some in keys;
    var others := keys - {some};
    if others == {} {
      assert forall k | k in keys :: k == some || k in others;
    } else {
      NewestExists(rows, others);
      var newest :| newest in others && forall k | k in others :: k == newest || Newer(rows[newest], rows[k]);
      NewerIsTotal(rows[some], rows[newest]);
      if Newer(rows[newest], rows[some]) {
        assert forall k | k in keys :: k == newest || Newer(rows[newest], rows[k]);
      } else {
        forall k | k in keys ensures k == some || Newer(rows[some], rows[k]) {
          if k != some && k != newest { NewerIsTransitive(rows[some], rows[newest], rows[k]); }
        }
      }
    }
  }

  ghost predicate Outrank(rows: Rows, taken: set<Key>, rest: set<Key>) {
    && (forall k :: k in taken + rest ==> k in rows && rows[k].PaidFact?)
    && (forall t, r :: t in taken && r in rest ==> Newer(rows[t], rows[r]))
  }

  ghost predicate Collects(rows: Rows, taken: set<Key>, facts: seq<Fact>) {
    && |facts| == |taken|
    && (forall f :: f in facts <==> f.Name() in taken && f.Name() in rows && rows[f.Name()] == f)
  }

  lemma TakeOne(rows: Rows, taken: set<Key>, rest: set<Key>, facts: seq<Fact>, newest: Key)
    requires Named(rows) && Outrank(rows, taken, rest) && taken !! rest
    requires Collects(rows, taken, facts) && OldestFirst(facts)
    requires newest in rest && forall k | k in rest :: k == newest || Newer(rows[newest], rows[k])
    ensures Outrank(rows, taken + {newest}, rest - {newest})
    ensures Collects(rows, taken + {newest}, [rows[newest]] + facts) && OldestFirst([rows[newest]] + facts)
  {
    hide Newer, Collects, OldestFirst;
    OutrankOneMore(rows, taken, rest, newest);
    CollectOneMore(rows, taken, facts, newest);
    OlderFirst(rows, taken, rest, facts, newest);
  }

  lemma OutrankOneMore(rows: Rows, taken: set<Key>, rest: set<Key>, newest: Key)
    requires Outrank(rows, taken, rest) && newest in rest
    requires forall k | k in rest :: k == newest || (k in rows && rows[k].PaidFact? && Newer(rows[newest], rows[k]))
    ensures Outrank(rows, taken + {newest}, rest - {newest})
  {
    hide Newer;
  }

  lemma CollectOneMore(rows: Rows, taken: set<Key>, facts: seq<Fact>, newest: Key)
    requires Named(rows) && Collects(rows, taken, facts) && newest in rows && newest !in taken
    ensures Collects(rows, taken + {newest}, [rows[newest]] + facts)
  {
  }

  lemma OlderFirst(rows: Rows, taken: set<Key>, rest: set<Key>, facts: seq<Fact>, newest: Key)
    requires Outrank(rows, taken, rest) && Collects(rows, taken, facts) && OldestFirst(facts) && newest in rest
    ensures OldestFirst([rows[newest]] + facts)
  {
    hide Newer;
    var more := [rows[newest]] + facts;
    forall i, j | 0 <= i < j < |more| ensures Newer(more[j], more[i]) {
      assert more[j] in facts;
    }
  }

  /**
   Newest first as far as the limit, then turned round: the rows that rank within the limit, oldest
   first.
   */
  method Play(rows: Rows, trigger: string, limit: nat) returns (facts: seq<Fact>)
    requires Named(rows)
    ensures OldestFirst(facts) && |facts| == Min(limit, |Of(rows, trigger)|)
    ensures forall f :: f in facts <==> Plays(rows, trigger, limit, f)
  {
    hide Outrank, Collects, Newer, OldestFirst, Nth;
    facts := [];
    var rest := set k | k in rows && rows[k].PaidFact? && rows[k].payment.trigger == Some(trigger);
    ghost var taken: set<Key> := {};
    NothingTaken(rows, trigger, rest);
    while rest != {} && |facts| < limit
      invariant |facts| <= limit && |facts| == |taken|
      invariant rest + taken == Of(rows, trigger) && rest !! taken
      invariant Outrank(rows, taken, rest) && Collects(rows, taken, facts) && OldestFirst(facts)
      decreases rest
    {
      NewestExists(rows, rest);
      var newest :| newest in rest && forall k | k in rest :: k == newest || Newer(rows[newest], rows[k]);
      TakeOne(rows, taken, rest, facts, newest);
      facts := [rows[newest]] + facts;
      rest := rest - {newest};
      taken := taken + {newest};
    }
    assert |Of(rows, trigger)| == |rest| + |taken|;
    TakenAreLatest(rows, trigger, limit, taken, rest);
    ListsLatest(rows, trigger, limit, facts);
  }

  /** Settled no later, and if at the same time, under no higher number. */
  ghost predicate NoLater(p: Fact, q: Fact)
    requires p.PaidFact? && q.PaidFact?
  {
    p.settledAt < q.settledAt || (p.settledAt == q.settledAt && p.number <= q.number)
  }

  /** What is played back comes in the order it settled, and what is left out settled before any of it. */
  lemma PlayedSettledLast(rows: Rows, trigger: string, limit: nat, facts: seq<Fact>)
    requires Named(rows) && OldestFirst(facts) && forall f :: f in facts <==> Plays(rows, trigger, limit, f)
    ensures forall i, j :: 0 <= i < j < |facts| ==> NoLater(facts[i], facts[j])
    ensures forall k, f :: k in Of(rows, trigger) && rows[k] !in facts && f in facts ==> NoLater(rows[k], f)
  {
    hide Nth;
    forall k, f | k in Of(rows, trigger) && rows[k] !in facts && f in facts ensures NoLater(rows[k], f) {
      assert !Plays(rows, trigger, limit, rows[k]) && Plays(rows, trigger, limit, f);
      if Newer(rows[k], f) { NewerRanksLower(rows, k, f.Name()); }
    }
  }

  lemma NothingTaken(rows: Rows, trigger: string, rest: set<Key>)
    requires rest == Of(rows, trigger)
    ensures Outrank(rows, {}, rest) && Collects(rows, {}, []) && OldestFirst([])
  {
  }

  lemma ListsLatest(rows: Rows, trigger: string, limit: nat, facts: seq<Fact>)
    requires Collects(rows, Latest(rows, trigger, limit), facts)
    ensures forall f :: f in facts <==> Plays(rows, trigger, limit, f)
  {
  }

  lemma TakenAreLatest(rows: Rows, trigger: string, limit: nat, taken: set<Key>, rest: set<Key>)
    requires rest + taken == Of(rows, trigger) && rest !! taken && Outrank(rows, taken, rest)
    requires |taken| <= limit && (rest == {} || |taken| == limit)
    ensures taken == Latest(rows, trigger, limit)
  {
    hide Outrank, Nth;
    forall k | k in Of(rows, trigger) ensures k in taken <==> Nth(rows, rows[k]) <= limit {
      TakenRanks(rows, trigger, limit, taken, rest, k);
    }
  }

  lemma TakenRanks(rows: Rows, trigger: string, limit: nat, taken: set<Key>, rest: set<Key>, k: Key)
    requires rest + taken == Of(rows, trigger) && rest !! taken && Outrank(rows, taken, rest)
    requires |taken| <= limit && (rest == {} || |taken| == limit) && k in Of(rows, trigger)
    ensures k in taken <==> Nth(rows, rows[k]) <= limit
  {
    var newer := NewerRows(rows, rows[k]);
    assert k !in newer;
    if k in taken {
      forall n | n in newer ensures n in taken {
        assert n in Of(rows, trigger);
      }
      SmallerSet(newer + {k}, taken);
    } else {
      SmallerSet(taken, newer);
    }
  }

  // ---------------------------------------------------------------- the sweep

  /** A settlement past its grace stays exactly when its rank is within the replay it was asked for. */
  lemma KeptExactlyWithinReplay(s: State, grace: nat, now: Time, k: Key)
    requires OnePerId(s.rows) && k in s.rows && s.rows[k].PaidFact? && s.rows[k].settledAt <= now - grace
    ensures k in Pruned(s, grace, now).rows <==> Nth(s.rows, s.rows[k]) <= s.rows[k].payment.replay
  {
    var id := s.rows[k].id;
    if BeyondReplay(s.rows, id) {
      var j :|
        j in s.rows && s.rows[j].PaidFact? && s.rows[j].id == id && Nth(s.rows, s.rows[j]) > s.rows[j].payment.replay;
      assert j == k;
    }
  }

  /** Rows that go take no row of a lower rank's place: a rank can only fall. */
  lemma RanksOnlyFall(rows: Rows, fewer: Rows, k: Key)
    requires k in rows && rows[k].PaidFact?
    requires forall j :: j in fewer ==> j in rows && fewer[j] == rows[j]
    ensures Nth(fewer, rows[k]) <= Nth(rows, rows[k])
  {
    SmallerSet(NewerRows(fewer, rows[k]), NewerRows(rows, rows[k]));
  }

  /** A second sweep at the same time deletes no settlement. */
  lemma SecondSweepKeepsSettlements(s: State, grace: nat, now: Time, k: Key)
    requires OnePerId(s.rows)
    requires var t := Pruned(s, grace, now); k in t.rows && t.rows[k].PaidFact?
    ensures k in Pruned(Pruned(s, grace, now), grace, now).rows
  {
    var t := Pruned(s, grace, now);
    if s.rows[k].settledAt <= now - grace {
      KeptExactlyWithinReplay(s, grace, now, k);
      RanksOnlyFall(s.rows, t.rows, k);
      KeptExactlyWithinReplay(t, grace, now, k);
    }
  }

  /** None of the newest `limit` is past its grace and shares its id with a settlement beyond its replay. */
  ghost predicate LatestAreSafe(rows: Rows, trigger: string, limit: nat, cut: int) {
    forall k :: k in Latest(rows, trigger, limit) && rows[k].settledAt <= cut ==> !BeyondReplay(rows, rows[k].id)
  }

  lemma LatestSurvive(s: State, grace: nat, now: Time, trigger: string, limit: nat, k: Key)
    requires Named(s.rows) && k in Of(s.rows, trigger)
    requires Latest(s.rows, trigger, limit) <= Pruned(s, grace, now).rows.Keys
    requires k in Pruned(s, grace, now).rows
    ensures Nth(s.rows, s.rows[k]) <= limit <==> Nth(Pruned(s, grace, now).rows, s.rows[k]) <= limit
  {
    hide Outlived;
    var t := Pruned(s, grace, now);
    RanksOnlyFall(s.rows, t.rows, k);
    var before, after := NewerRows(s.rows, s.rows[k]), NewerRows(t.rows, s.rows[k]);
    if Nth(s.rows, s.rows[k]) > limit {
      TopOutranks(s.rows, trigger, limit, k);
      assert Latest(s.rows, trigger, limit) <= after;
      LatestFillTheLimit(s.rows, trigger, limit, k);
      SmallerSet(Latest(s.rows, trigger, limit), after);
    }
  }

  lemma TopOutranks(rows: Rows, trigger: string, limit: nat, k: Key)
    requires Named(rows) && k in Of(rows, trigger) && Nth(rows, rows[k]) > limit
    ensures forall j :: j in Latest(rows, trigger, limit) ==> Newer(rows[j], rows[k])
  {
    forall j | j in Latest(rows, trigger, limit) ensures Newer(rows[j], rows[k]) {
      if Newer(rows[k], rows[j]) { NewerRanksLower(rows, k, j); }
      NewerIsTotal(rows[k], rows[j]);
    }
  }

  /** Where some row ranks beyond the limit, the limit is filled. */
  lemma {:induction false} LatestFillTheLimit(rows: Rows, trigger: string, limit: nat, k: Key)
    requires Named(rows) && k in Of(rows, trigger) && Nth(rows, rows[k]) > limit
    ensures |Latest(rows, trigger, limit)| >= limit
    decreases Nth(rows, rows[k])
  {
    var newer := NewerRows(rows, rows[k]);
    if newer <= Latest(rows, trigger, limit) {
      SmallerSet(newer, Latest(rows, trigger, limit));
    } else {
      var j :| j in newer && j !in Latest(rows, trigger, limit);
      NewerRanksLower(rows, j, k);
      LatestFillTheLimit(rows, trigger, limit, j);
    }
  }

  ghost predicate ReplayUnchanged(rows: Rows, fewer: Rows, trigger: string, limit: nat) {
    forall f :: Plays(rows, trigger, limit, f) <==> Plays(fewer, trigger, limit, f)
  }

  /**
   A sweep leaves a replay alone exactly when each of its rows past the grace has no sibling beyond
   its own.
   */
  lemma SweepKeepsReplay(s: State, grace: nat, now: Time, trigger: string, limit: nat)
    requires Named(s.rows)
    ensures ReplayUnchanged(s.rows, Pruned(s, grace, now).rows, trigger, limit)
      <==> LatestAreSafe(s.rows, trigger, limit, now - grace)
  {
    hide BeyondReplay, Nth, NewerRows;
    var t := Pruned(s, grace, now);
    if LatestAreSafe(s.rows, trigger, limit, now - grace) {
      forall k | k in Of(t.rows, trigger)
        ensures k in Latest(s.rows, trigger, limit) <==> k in Latest(t.rows, trigger, limit)
      {
        LatestSurvive(s, grace, now, trigger, limit, k);
      }
    } else {
      var k :|
        && k in Latest(s.rows, trigger, limit)
        && s.rows[k].settledAt <= now - grace && BeyondReplay(s.rows, s.rows[k].id);
      assert k !in t.rows;
      assert s.rows[k].Name() == k;
      assert Plays(s.rows, trigger, limit, s.rows[k]);
      assert !Plays(t.rows, trigger, limit, s.rows[k]);
    }
  }

  /** Every settlement of the trigger asked to be replayed at least this far back. */
  ghost predicate AskedFor(rows: Rows, trigger: string, limit: nat) {
    forall k :: k in Of(rows, trigger) ==> limit <= rows[k].payment.replay
  }

  /**
   Where an id is settled once, a sweep never changes a replay no longer than the least any of its
   rows asked for.
   */
  lemma RetentionServesReplay(s: State, grace: nat, now: Time, trigger: string, limit: nat)
    requires Named(s.rows) && OnePerId(s.rows) && AskedFor(s.rows, trigger, limit)
    ensures ReplayUnchanged(s.rows, Pruned(s, grace, now).rows, trigger, limit)
  {
    hide Nth, NewerRows, ReplayUnchanged;
    SweepKeepsReplay(s, grace, now, trigger, limit);
    forall k | k in Latest(s.rows, trigger, limit) ensures !BeyondReplay(s.rows, s.rows[k].id) {
      AloneWithinReplay(s.rows, k);
    }
  }

  lemma AloneWithinReplay(rows: Rows, k: Key)
    requires OnePerId(rows) && k in rows && rows[k].PaidFact? && Nth(rows, rows[k]) <= rows[k].payment.replay
    ensures !BeyondReplay(rows, rows[k].id)
  {
    hide Nth;
  }

  /** A sound ledger that holds one payment settled twice, by itself and then by another. */
  ghost function SettledTwice(): State {
    var payment := Payment("x", 0, 9, "", Some("t"), 1, []);
    var older, newer := PaidFact(0, 1, "x", payment, 1), PaidFact(1, 1, "x", payment, 2);
    State(0, map[older.Name() := older, newer.Name() := newer], map[Slot(Paid, 0) := 1, Slot(Paid, 1) := 1],
      map[], map[older.Name() := 1, newer.Name() := 2], map[])
  }

  lemma SettledTwiceIsSound()
    ensures Sound(SettledTwice())
  {
  }

  /** Two instances that settle one id can lose a trigger the very settlement it would play back. */
  lemma TwiceSettledCanBeLost()
    ensures exists s: State, grace: nat, now: Time, trigger: string, limit: nat ::
      Sound(s) && AskedFor(s.rows, trigger, limit)
      && !ReplayUnchanged(s.rows, Pruned(s, grace, now).rows, trigger, limit)
  {
    hide Sound, ReplayUnchanged, Pruned;
    var s := SettledTwice();
    SettledTwiceIsSound();
    var payment := Payment("x", 0, 9, "", Some("t"), 1, []);
    LosesTheNewest(s, PaidFact(0, 1, "x", payment, 1), PaidFact(1, 1, "x", payment, 2), "t", 0, 5);
    assert AskedFor(s.rows, "t", 1);
    assert !ReplayUnchanged(s.rows, Pruned(s, 0, 5).rows, "t", 1);
  }

  /** The loss, wherever one trigger holds just these two settlements of one id and asks for one of them. */
  lemma LosesTheNewest(s: State, older: Fact, newer: Fact, trigger: string, grace: nat, now: Time)
    requires Named(s.rows) && older.PaidFact? && newer.PaidFact? && older.id == newer.id
    requires Of(s.rows, trigger) == {older.Name(), newer.Name()}
    requires s.rows[older.Name()] == older && s.rows[newer.Name()] == newer
    requires older.payment.replay == 1 && older.settledAt < newer.settledAt <= now - grace
    ensures !ReplayUnchanged(s.rows, Pruned(s, grace, now).rows, trigger, 1)
  {
    hide Pruned;
    assert newer.Name() in NewerRows(s.rows, older);
    assert NewerRows(s.rows, newer) == {} by {
      forall k | k in NewerRows(s.rows, newer) ensures k in Of(s.rows, trigger) {}
    }
    assert Nth(s.rows, s.rows[older.Name()]) > s.rows[older.Name()].payment.replay by {
      SmallerSet({newer.Name()}, NewerRows(s.rows, older));
    }
    assert BeyondReplay(s.rows, newer.id);
    assert newer.Name() in Latest(s.rows, trigger, 1);
    SweepKeepsReplay(s, grace, now, trigger, 1);
  }
}
