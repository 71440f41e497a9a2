/** Every run of every cluster keeps `Inv`. */
module ClusterSafety {
  import opened Options
  import opened Facts
  import opened LedgerState
  import opened Replication
  import opened Answering
  import opened Clusters

  // ---------------------------------------------------------------- what one instance may become

  /** The rows of `t` are those of `s`, its own next ones, or ones their origin issued just so. */
  ghost predicate RowsInOrder(past: History, s: State, t: State) {
    forall k :: k in t.rows ==>
      || (k in s.rows && t.rows[k] == s.rows[k])
      || (k !in s.rows && k.slot.origin == s.self && MarkIn(s.marks, k.slot) < k.number)
      || (k !in s.rows && k in past.issued && past.issued[k] == t.rows[k])
  }

  ghost predicate MarksInOrder(c: Cluster, s: State, t: State, refused: set<Key>) {
    && (forall slot :: MarkIn(s.marks, slot) <= MarkIn(t.marks, slot))
    && (forall slot, n :: MarkIn(s.marks, slot) < n <= MarkIn(t.marks, slot) ==>
      && (slot.origin == s.self ==> Key(slot, n) in t.rows)
      && (slot.origin != s.self ==> WithinOrigin(c, slot, n))
      && (Key(slot, n) in t.rows || c.Gone(Key(slot, n)) || Key(slot, n) in refused))
  }

  ghost predicate Legit(c: Cluster, who: Origin, t: State, refused: set<Key>) {
    && who in c.at && who in c.past.recorded
    && t.self == who && Sound(t)
    && RowsInOrder(c.past, c.at[who], t)
    && MarksInOrder(c, c.at[who], t, refused)
  }

  lemma ActWrites(s: State, act: Action, t: State) returns (p: State)
    requires Sound(s) && Acts(s, act, t)
    ensures Prunes(s, p) && Sound(p) && Issues(p, t) && Sound(t)
  {
    hide Sound, Issues, Prunes, Swept, Inserted, Settling, Landed, Pruned, OwedEvery, Taken, Opened, Forgotten;
    PrunesReflexive(s);
    IssuesReflexive(s);
    p := s;
    match act
    case Insert(payment, dueAt, now) => InsertedIssues(s, payment, dueAt, now);
    case Pay(id, opens, now) => SettlingIssues(s, id, opens, now);
    case Deliver(id, url, now) => LandedIssues(s, id, url, now);
    case Sweep(grace, order, now) =>
      p := Pruned(s, grace, now);
      SweptIssues(s, grace, order, now);
    case Reschedule => WorklistIsLocal(s, s, t);
  }

  lemma PrunesReflexive(s: State)
    ensures Prunes(s, s)
  {
  }

  lemma InsertedIssues(s: State, payment: Payment, dueAt: Time, now: Time)
    requires Sound(s)
    ensures Issues(s, Inserted(s, payment, dueAt, now)) && Sound(Inserted(s, payment, dueAt, now))
  {
    hide Issues, Sound, Taken;
    IssuesReflexive(s);
    TakenIssues(s, payment, dueAt, now);
  }

  lemma SettlingIssues(s: State, id: Id, opens: bool, now: Time)
    requires Sound(s)
    ensures Issues(s, Settling(s, id, opens, now)) && Sound(Settling(s, id, opens, now))
  {
    hide Issues, Sound, Opened, Read;
    IssuesReflexive(s);
    WorklistIsLocal(s, s, Forgotten(s, id));
    var watched := Read(s, id);
    if watched.Some? { OpenedIssues(s, watched.value, now); }
  }

  lemma SweptIssues(s: State, grace: nat, order: seq<Missing>, now: Time)
    requires Sound(s)
    ensures var p := Pruned(s, grace, now);
      Prunes(s, p) && Sound(p) && Issues(p, Swept(s, grace, order, now)) && Sound(Swept(s, grace, order, now))
  {
    hide Issues, Sound, Prunes, Pruned, OwedEvery;
    PrunedPrunes(s, grace, now);
    OwedEveryIssues(Pruned(s, grace, now), order, now);
  }

  lemma WritingIsLegit(c: Cluster, who: Origin, p: State, t: State)
    requires who in c.at && who in c.past.recorded && c.at[who].self == who && OwnBelowMark(c.at[who])
    requires Prunes(c.at[who], p) && Issues(p, t) && Sound(t)
    ensures Legit(c, who, t, {})
  {
  }

  lemma HonestFacts(c: Cluster, note: Note, f: Fact)
    requires Honest(c, note) && f in note.Facts()
    ensures AsIssued(c.past, f)
  {
  }

  lemma HeardRows(c: Cluster, rules: Rules, s: State, t: State, note: Note)
    requires Honest(c, note) && AbsorbsOnly(rules, s, t, note.Facts())
    ensures RowsInOrder(c.past, s, t)
    ensures forall k :: k in t.rows ==> k in s.rows || (k in c.past.issued && c.past.issued[k] == t.rows[k])
  {
    hide Honest;
    forall k | k in t.rows && k !in s.rows ensures k in c.past.issued && c.past.issued[k] == t.rows[k] {
      HonestFacts(c, note, t.rows[k]);
    }
  }

  /** No note teaches an instance anything in its own lanes. */
  lemma HeardOwnLanes(c: Cluster, s: State, t: State, through: Option<Watermarks>)
    requires s.self in c.at && c.at[s.self] == s && t.self == s.self
    requires IssuedInTurn(c) && Closed(s) && OwnBelowMark(s) && AbsorbsMarks(s, t, through)
    requires forall k :: k in t.rows ==> k in s.rows || k in c.past.issued
    ensures forall slot: Slot :: slot.origin == s.self ==> MarkIn(t.marks, slot) == MarkIn(s.marks, slot)
    ensures OwnBelowMark(t)
  {
    forall slot: Slot | slot.origin == s.self ensures MarkIn(t.marks, slot) == MarkIn(s.marks, slot) {
      var next := Above(s.marks, slot);
      assert next !in s.rows;
      assert next in c.past.issued ==> next.number <= c.Mark(s.self, slot);
    }
    forall k | k in t.rows && k.slot.origin == s.self ensures 1 <= k.number <= MarkIn(t.marks, k.slot) {
      if k !in s.rows { assert k in c.past.issued; }
    }
  }

  lemma IssuedWithin(c: Cluster, slot: Slot, n: nat)
    requires IssuedInTurn(c) && Key(slot, n) in c.past.issued
    ensures WithinOrigin(c, slot, n)
  {
  }

  lemma VouchedWithin(c: Cluster, note: Note, slot: Slot, n: nat)
    requires Honest(c, note) && note.Through().Some? && slot in note.Through().value && n <= note.Through().value[slot]
    ensures WithinOrigin(c, slot, n)
  {
    assert WithinOrigin(c, slot, MarkIn(note.sender, slot));
  }

  /** A number a note vouches for comes with the note, or is gone. */
  lemma VouchedComes(c: Cluster, rules: Rules, s: State, t: State, note: Note, slot: Slot, n: nat)
    requires Honest(c, note) && note.Answer? && s.self == note.to && note.to in c.at && c.at[note.to] == s
    requires BringsAll(rules, s, t, note.Facts())
    requires slot in note.reply.through && MarkIn(s.marks, slot) < n <= note.reply.through[slot]
    ensures Key(slot, n) in t.rows || c.Gone(Key(slot, n)) || Key(slot, n) in RefusedIn(rules, note.Facts())
  {
    assert MarkIn(note.asked, slot) <= c.Mark(note.to, slot);
    if !c.Gone(Key(slot, n)) {
      var f :| f in note.reply.facts && f.Name() == Key(slot, n);
      if Proven(rules, f) { assert f.Lane() == slot && f.number == n; }
    }
  }

  lemma HeardMarks(c: Cluster, rules: Rules, s: State, t: State, note: Note)
    requires s.self in c.at && c.at[s.self] == s && (note.Answer? ==> note.to == s.self)
    requires Honest(c, note) && IssuedInTurn(c)
    requires forall slot: Slot :: slot.origin == s.self ==> MarkIn(t.marks, slot) == MarkIn(s.marks, slot)
    requires AbsorbsMarks(s, t, note.Through()) && BringsAll(rules, s, t, note.Facts())
    requires forall k :: k in t.rows ==> k in c.past.issued
    ensures MarksInOrder(c, s, t, RefusedIn(rules, note.Facts()))
  {
    hide Honest, IssuedInTurn, BringsAll, RefusedIn, WithinOrigin, Cluster.Gone;
    forall slot, n | MarkIn(s.marks, slot) < n <= MarkIn(t.marks, slot)
      ensures WithinOrigin(c, slot, n)
      ensures Key(slot, n) in t.rows || c.Gone(Key(slot, n)) || Key(slot, n) in RefusedIn(rules, note.Facts())
    {
      if Key(slot, n) in t.rows {
        IssuedWithin(c, slot, n);
      } else {
        VouchedWithin(c, note, slot, n);
        VouchedComes(c, rules, s, t, note, slot, n);
      }
    }
  }

  lemma HearingIsLegit(w: World, c: Cluster, who: Origin, note: Note, standby: Fact -> Time, now: Time)
    requires Members(c) && IssuedInTurn(c) && Immutable(c) && who in c.at
    requires Honest(c, note) && (note.Answer? ==> note.to == who)
    ensures Legit(c, who, Absorbed(w.RulesAt(who), c.at[who], note.Facts(), note.Through(), standby, now),
                  RefusedIn(w.RulesAt(who), note.Facts()))
  {
    hide Absorbed, Filed, Closed, OwnBelowMark, BringsAll, RefusedIn, AbsorbsMarks;
    hide IssuedInTurn, Honest, MarksInOrder, RowsInOrder;
    var rules, s := w.RulesAt(who), c.at[who];
    var t := Absorbed(rules, s, note.Facts(), note.Through(), standby, now);
    AbsorbedEffect(rules, s, note.Facts(), note.Through(), standby, now);
    HeardRows(c, rules, s, t, note);
    HeardOwnLanes(c, s, t, note.Through());
    HeardMarks(c, rules, s, t, note);
    ClosedAfter(s, t, note.Through());
  }

  lemma ClosedAfter(s: State, t: State, through: Option<Watermarks>)
    requires AbsorbsMarks(s, t, through) && Closed(s)
    ensures Closed(t)
  {
  }

  // ---------------------------------------------------------------- what a legitimate move keeps

  /** Marks and issued facts only ever grow. */
  ghost predicate Grows(c: Cluster, d: Cluster) {
    && d.at.Keys == c.at.Keys && d.past.recorded.Keys == c.past.recorded.Keys
    && (forall i, slot :: i in c.at ==> c.Mark(i, slot) <= d.Mark(i, slot))
    && (forall k :: k in c.past.issued ==> k in d.past.issued && d.past.issued[k] == c.past.issued[k])
    && c.past.pruned <= d.past.pruned && c.past.refused <= d.past.refused
    && (forall i :: i in c.past.recorded ==> c.past.recorded[i] <= d.past.recorded[i])
  }

  lemma MovedGrows(c: Cluster, who: Origin, t: State, said: set<Note>, refused: set<Key>)
    requires Legit(c, who, t, refused) && Members(c) && IssuedInTurn(c)
    ensures Grows(c, Moved(c, who, t, said, refused))
  {
    hide Sound, MarksInOrder, RowsInOrder;
    var d := Moved(c, who, t, said, refused);
    assert forall slot :: MarkIn(c.at[who].marks, slot) <= MarkIn(t.marks, slot) by {
      MarksOnlyGrow(c, c.at[who], t, refused);
    }
    forall k | k in c.past.issued ensures k in d.past.issued && d.past.issued[k] == c.past.issued[k] {
      IssuedStays(c, who, t, said, refused, k);
    }
  }

  lemma MarksOnlyGrow(c: Cluster, s: State, t: State, refused: set<Key>)
    requires MarksInOrder(c, s, t, refused)
    ensures forall slot :: MarkIn(s.marks, slot) <= MarkIn(t.marks, slot)
  {
    hide WithinOrigin, Cluster.Gone;
  }

  lemma IssuedStays(c: Cluster, who: Origin, t: State, said: set<Note>, refused: set<Key>, k: Key)
    requires Legit(c, who, t, refused) && Members(c) && IssuedInTurn(c) && k in c.past.issued
    ensures var d := Moved(c, who, t, said, refused);
      k in d.past.issued && d.past.issued[k] == c.past.issued[k]
  {
    hide Sound, MarksInOrder;
    if k in t.rows && k !in c.at[who].rows && k.slot.origin == who {
      assert k.number <= c.Mark(who, k.slot);
    }
  }

  lemma MovedMembers(c: Cluster, who: Origin, t: State, said: set<Note>, refused: set<Key>)
    requires Legit(c, who, t, refused) && Members(c)
    ensures Members(Moved(c, who, t, said, refused))
  {
    hide Sound, MarksInOrder, RowsInOrder;
  }

  lemma MovedIssuedInTurn(c: Cluster, who: Origin, t: State, said: set<Note>, refused: set<Key>)
    requires Legit(c, who, t, refused) && Members(c) && IssuedInTurn(c)
    ensures IssuedInTurn(Moved(c, who, t, said, refused))
  {
    hide Sound, MarksInOrder, RowsInOrder;
    var d := Moved(c, who, t, said, refused);
    MovedGrows(c, who, t, said, refused);
    forall i, slot: Slot, n | i in d.at && slot.origin == i && 1 <= n <= d.Mark(i, slot)
      ensures Key(slot, n) in d.past.issued
    {
      if n <= c.Mark(i, slot) {
        assert Key(slot, n) in c.past.issued;
      } else {
        OwnNumberIsIssued(c, who, t, said, refused, slot, n);
      }
    }
    forall k | k in d.past.issued ensures k.slot.origin in d.at && 1 <= k.number <= d.Mark(k.slot.origin, k.slot) {
      if k !in c.past.issued { SoundOwnLanes(t); } else { assert k.number <= c.Mark(k.slot.origin, k.slot); }
    }
  }

  lemma OwnNumberIsIssued(
    c: Cluster, who: Origin, t: State, said: set<Note>, refused: set<Key>, slot: Slot, n: nat)
    requires Legit(c, who, t, refused) && Members(c)
    requires slot.origin == who && c.Mark(who, slot) < n <= MarkIn(t.marks, slot)
    ensures Key(slot, n) in Moved(c, who, t, said, refused).past.issued
  {
    hide Filed, Closed, WithinOrigin, Cluster.Gone, RowsInOrder;
    assert Key(slot, n) in t.rows;
    assert Key(slot, n) !in c.at[who].rows;
  }

  lemma MovedRowAsIssued(c: Cluster, who: Origin, t: State, said: set<Note>, refused: set<Key>, k: Key)
    requires Legit(c, who, t, refused) && Members(c) && k in t.rows
    requires k in c.at[who].rows ==> k in c.past.issued && c.past.issued[k] == c.at[who].rows[k]
    requires Grows(c, Moved(c, who, t, said, refused))
    ensures var d := Moved(c, who, t, said, refused); k in d.past.issued && d.past.issued[k] == t.rows[k]
  {
    hide Sound, MarksInOrder;
  }

  lemma MovedImmutable(c: Cluster, who: Origin, t: State, said: set<Note>, refused: set<Key>)
    requires Legit(c, who, t, refused) && Members(c) && IssuedInTurn(c) && Immutable(c)
    ensures Immutable(Moved(c, who, t, said, refused))
  {
    hide Sound, RowsInOrder, MarksInOrder, Members, IssuedInTurn;
    var d := Moved(c, who, t, said, refused);
    MovedGrows(c, who, t, said, refused);
    forall i, k | i in d.at && k in d.at[i].rows
      ensures k in d.past.issued && d.past.issued[k] == d.at[i].rows[k]
    {
      if i == who {
        MovedRowAsIssued(c, who, t, said, refused, k);
      } else {
        assert k in c.past.issued;
      }
    }
  }

  lemma WithinGrows(c: Cluster, d: Cluster, slot: Slot, n: nat)
    requires Grows(c, d) && WithinOrigin(c, slot, n)
    ensures WithinOrigin(d, slot, n)
  {
  }

  lemma MovedBehindOrigin(c: Cluster, who: Origin, t: State, said: set<Note>, refused: set<Key>)
    requires Legit(c, who, t, refused) && Members(c) && IssuedInTurn(c) && BehindOrigin(c)
    ensures BehindOrigin(Moved(c, who, t, said, refused))
  {
    hide Sound, RowsInOrder, Cluster.Gone, WithinOrigin, IssuedInTurn;
    var d := Moved(c, who, t, said, refused);
    MovedGrows(c, who, t, said, refused);
    forall i, slot | i in d.at ensures WithinOrigin(d, slot, d.Mark(i, slot)) {
      if i == who && c.Mark(who, slot) < d.Mark(who, slot) {
        if slot.origin == who {
          OwnMarkWithin(d, slot);
        } else {
          assert Key(slot, d.Mark(who, slot)) == Key(slot, MarkIn(t.marks, slot));
          WithinGrows(c, d, slot, d.Mark(who, slot));
        }
      } else {
        assert WithinOrigin(c, slot, c.Mark(i, slot));
        WithinGrows(c, d, slot, d.Mark(i, slot));
      }
    }
  }

  lemma OwnMarkWithin(d: Cluster, slot: Slot)
    requires slot.origin in d.at
    ensures WithinOrigin(d, slot, d.Mark(slot.origin, slot))
  {
  }

  lemma MovedNothingMissed(c: Cluster, who: Origin, t: State, said: set<Note>, refused: set<Key>)
    requires Legit(c, who, t, refused) && Members(c) && NothingMissed(c)
    ensures NothingMissed(Moved(c, who, t, said, refused))
  {
    hide Sound, RowsInOrder, WithinOrigin;
    var d := Moved(c, who, t, said, refused);
    forall i, slot, n | i in d.at && i in d.past.recorded && 1 <= n <= d.Mark(i, slot)
      ensures Key(slot, n) in d.past.recorded[i] || d.Gone(Key(slot, n))
    {
      if n <= c.Mark(i, slot) {
        assert Key(slot, n) in c.past.recorded[i] || c.Gone(Key(slot, n));
      }
    }
  }

  lemma MovedNothingDropped(c: Cluster, who: Origin, t: State, said: set<Note>, refused: set<Key>)
    requires Legit(c, who, t, refused) && Members(c) && NothingDropped(c)
    ensures NothingDropped(Moved(c, who, t, said, refused))
  {
    hide Sound, RowsInOrder, MarksInOrder;
  }

  lemma HonestGrows(c: Cluster, d: Cluster, note: Note)
    requires Grows(c, d) && Honest(c, note)
    ensures Honest(d, note)
  {
    match note
    case Push(facts) =>
    case Have(asker, _, marks) =>
    case Answer(to, reply, asked, sender) =>
      forall slot ensures WithinOrigin(d, slot, MarkIn(sender, slot)) {
        WithinGrows(c, d, slot, MarkIn(sender, slot));
      }
      forall slot, n | slot in reply.through && MarkIn(asked, slot) < n <= reply.through[slot]
        ensures (exists f :: f in reply.facts && f.Name() == Key(slot, n)) || d.Gone(Key(slot, n))
      {
        if c.Gone(Key(slot, n)) { assert d.Gone(Key(slot, n)); }
      }
  }

  lemma NewsIsHonest(d: Cluster, who: Origin, note: Note)
    requires who in d.at && Immutable(d) && note.Push?
    requires forall f :: f in note.facts ==> f.Name() in d.at[who].rows && d.at[who].rows[f.Name()] == f
    ensures Honest(d, note)
  {
  }

  lemma LegitMoveKeepsInv(c: Cluster, who: Origin, t: State, said: set<Note>, refused: set<Key>)
    requires Inv(c) && Legit(c, who, t, refused) && OwnNews(t, said)
    ensures Inv(Moved(c, who, t, said, refused)) && Grows(c, Moved(c, who, t, said, refused))
  {
    hide Sound, RowsInOrder, MarksInOrder;
    hide Honest, Members, IssuedInTurn, Immutable, BehindOrigin, NothingMissed, NothingDropped, Grows;
    var d := Moved(c, who, t, said, refused);
    MovedGrows(c, who, t, said, refused);
    MovedMembers(c, who, t, said, refused);
    MovedIssuedInTurn(c, who, t, said, refused);
    MovedImmutable(c, who, t, said, refused);
    MovedBehindOrigin(c, who, t, said, refused);
    MovedNothingMissed(c, who, t, said, refused);
    MovedNothingDropped(c, who, t, said, refused);
    forall note | note in d.wire ensures Honest(d, note) {
      if note in c.wire { HonestGrows(c, d, note); } else { NewsIsHonest(d, who, note); }
    }
  }

  // ---------------------------------------------------------------- every step

  /** A number the answerer vouches for comes with its answer, or is gone. */
  lemma AnswerOwesNothing(c: Cluster, who: Origin, theirs: Watermarks, reply: Reply, slot: Slot, n: nat)
    requires who in c.at && who in c.past.recorded && Sound(c.at[who]) && NothingMissed(c) && NothingDropped(c)
    requires IsReply(c.at[who], theirs, reply)
    requires slot in reply.through && MarkIn(theirs, slot) < n <= reply.through[slot]
    ensures (exists f :: f in reply.facts && f.Name() == Key(slot, n)) || c.Gone(Key(slot, n))
  {
    hide IsReply, Closed, OwnBelowMark;
    var s, k := c.at[who], Key(slot, n);
    ReplyReaches(s, theirs, reply, slot);
    assert n <= c.Mark(who, slot);
    assert k in c.past.recorded[who] || c.Gone(k);
    if k in s.rows {
      ReplyMissesNothing(s, theirs, reply, slot, n);
      assert s.rows[k].Name() == k;
    }
  }

  lemma AnswerIsHonest(c: Cluster, who: Origin, have: Note, reply: Reply)
    requires Inv(c) && who in c.at && have in c.wire && have.Have? && IsReply(c.at[who], have.marks, reply)
    ensures Honest(c, Answer(have.asker, reply, have.marks, c.at[who].marks))
  {
    hide IsReply, IssuedInTurn, WithinOrigin, Closed, OwnBelowMark, NothingMissed, NothingDropped;
    var s := c.at[who];
    assert Honest(c, have);
    assert Sound(s) && who in c.past.recorded;
    forall f | f in reply.facts ensures AsIssued(c.past, f) {
      ReplyHoldsRows(s, have.marks, reply, f);
    }
    forall slot ensures WithinOrigin(c, slot, MarkIn(s.marks, slot)) {
      assert WithinOrigin(c, slot, c.Mark(who, slot));
    }
    forall slot | slot in reply.through ensures reply.through[slot] <= MarkIn(s.marks, slot) {
      ReplyReaches(s, have.marks, reply, slot);
    }
    forall slot, n | slot in reply.through && MarkIn(have.marks, slot) < n <= reply.through[slot]
      ensures (exists f :: f in reply.facts && f.Name() == Key(slot, n)) || c.Gone(Key(slot, n))
    {
      AnswerOwesNothing(c, who, have.marks, reply, slot, n);
    }
    if !reply.more {
      forall slot ensures MarkIn(s.marks, slot) <= MarkIn(have.marks, slot)
        || (slot in reply.through && reply.through[slot] == MarkIn(s.marks, slot))
      {
        if MarkIn(have.marks, slot) < MarkIn(s.marks, slot) { LastReplyCoversAll(s, have.marks, reply, slot); }
      }
    }
  }

  lemma SayingKeepsInv(c: Cluster, note: Note)
    requires Inv(c) && Honest(c, note)
    ensures Inv(c.(wire := c.wire + {note})) && Grows(c, c.(wire := c.wire + {note}))
  {
    hide Honest, Members, IssuedInTurn, Immutable, BehindOrigin, NothingMissed, NothingDropped;
    var d := c.(wire := c.wire + {note});
    assert Grows(c, d);
    SayingKeepsPlaces(c, d);
    SayingKeepsPast(c, d);
    forall other | other in d.wire ensures Honest(d, other) {
      HonestGrows(c, d, other);
    }
  }

  lemma SayingKeepsPlaces(c: Cluster, d: Cluster)
    requires d.at == c.at && d.past == c.past
    ensures Members(c) ==> Members(d)
    ensures Immutable(c) ==> Immutable(d)
    ensures NothingDropped(c) ==> NothingDropped(d)
  {
    hide Sound;
  }

  lemma SayingKeepsPast(c: Cluster, d: Cluster)
    requires d.at == c.at && d.past == c.past
    ensures IssuedInTurn(c) ==> IssuedInTurn(d)
    ensures BehindOrigin(c) ==> BehindOrigin(d)
    ensures NothingMissed(c) ==> NothingMissed(d)
  {
    assert forall i, slot :: i in c.at ==> d.Mark(i, slot) == c.Mark(i, slot);
    assert forall slot, n :: WithinOrigin(d, slot, n) == WithinOrigin(c, slot, n);
    assert forall k :: d.Gone(k) == c.Gone(k);
  }

  lemma NextKeepsInv(w: World, c: Cluster, d: Cluster, step: Step)
    requires Inv(c) && Next(w, c, d, step)
    ensures Inv(d) && Grows(c, d)
  {
    hide Sound, Legit, Grows, Absorbed, IsReply, Acts;
    hide IssuedInTurn, Immutable, BehindOrigin, NothingMissed, NothingDropped;
    var s := c.at[step.who];
    match step
    case Act(who, act, said) =>
      var p := ActWrites(s, act, d.at[who]);
      SoundOwnLanes(s);
      WritingIsLegit(c, who, p, d.at[who]);
      LegitMoveKeepsInv(c, who, d.at[who], said, {});
    case Ask(who, to) =>
      SayingKeepsInv(c, Have(who, to, s.marks));
    case Tell(who, have, reply) =>
      AnswerIsHonest(c, who, have, reply);
      SayingKeepsInv(c, Answer(have.asker, reply, have.marks, s.marks));
    case Hear(who, note, standby, now) =>
      var rules := w.RulesAt(who);
      HearingIsLegit(w, c, who, note, standby, now);
      LegitMoveKeepsInv(c, who, Absorbed(rules, s, note.Facts(), note.Through(), standby, now),
                        {}, RefusedIn(rules, note.Facts()));
  }

  lemma SoundOwnLanes(s: State)
    requires Sound(s)
    ensures OwnBelowMark(s)
  {
  }

  lemma StartKeepsInv(c: Cluster)
    requires Start(c)
    ensures Inv(c)
  {
  }

  /** The theorem: however notes are lost, repeated and reordered, every reachable cluster keeps `Inv`. */
  lemma {:induction false} EveryRunKeepsInv(w: World, trace: seq<Cluster>, steps: seq<Step>, n: nat)
    requires Run(w, trace, steps) && n < |trace|
    ensures Inv(trace[n])
  {
    hide Inv, Next;
    if n == 0 {
      StartKeepsInv(trace[0]);
    } else {
      EveryRunKeepsInv(w, trace, steps, n - 1);
      NextKeepsInv(w, trace[n - 1], trace[n], steps[n - 1]);
    }
  }
}
