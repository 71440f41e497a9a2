/** What `since` promises the instance that asked. */
module Answering {
  import opened Options
  import opened Facts
  import opened LedgerState
  import opened Replication

  ghost predicate FromLane(rows: map<Key, Fact>, slot: Slot, above: nat, upTo: nat, f: Fact) {
    && f.Name() == Key(slot, f.number) && above < f.number <= upTo
    && f.Name() in rows && rows[f.Name()] == f
  }

  ghost predicate Climbs(facts: seq<Fact>) {
    forall i, j :: 0 <= i < j < |facts| ==> facts[i].number < facts[j].number
  }

  /** The batch of a lane is in ascending order. */
  lemma {:induction false} StretchIsAscending(rows: map<Key, Fact>, slot: Slot, above: nat, upTo: nat)
    requires forall k :: k in rows ==> rows[k].Name() == k
    ensures forall f :: f in Stretch(rows, slot, above, upTo) ==> FromLane(rows, slot, above, upTo, f)
    ensures Climbs(Stretch(rows, slot, above, upTo))
    decreases upTo - above
  {
    if above < upTo {
      StretchIsAscending(rows, slot, above + 1, upTo);
      var all, rest := Stretch(rows, slot, above, upTo), Stretch(rows, slot, above + 1, upTo);
      var key := Key(slot, above + 1);
      if key in rows {
        assert rows[key].Name() == key;
        assert forall i :: 1 <= i < |all| ==> all[i] == rest[i - 1];
        assert forall i :: 1 <= i < |all| ==> all[i] in rest;
      }
    }
  }

  lemma {:induction false} StretchMissesNothing(rows: map<Key, Fact>, slot: Slot, above: nat, upTo: nat, n: nat)
    requires forall k :: k in rows ==> rows[k].Name() == k
    requires above < n <= upTo && Key(slot, n) in rows
    ensures rows[Key(slot, n)] in Stretch(rows, slot, above, upTo)
    decreases upTo - above
  {
    if n != above + 1 {
      StretchMissesNothing(rows, slot, above + 1, upTo, n);
    }
  }

  lemma BatchReaches(s: State, slot: Slot, seen: nat, n: nat)
    requires Filed(s) && seen < n <= Reaches(s, slot, seen) && Key(slot, n) in s.rows && seen < s.Mark(slot)
    ensures s.rows[Key(slot, n)] in Batch(s, slot, seen)
  {
    var all := Stretch(s.rows, slot, seen, s.Mark(slot));
    StretchIsAscending(s.rows, slot, seen, s.Mark(slot));
    ReachesWithinMark(s, slot, seen);
    StretchMissesNothing(s.rows, slot, seen, s.Mark(slot), n);
    var row := s.rows[Key(slot, n)];
    var i :| 0 <= i < |all| && all[i] == row;
    if Cut(s, slot, seen) {
      assert all[GAP_BATCH - 1] == Batch(s, slot, seen)[GAP_BATCH - 1];
      assert row.Name() == Key(slot, n) && FromLane(s.rows, slot, seen, s.Mark(slot), all[i]);
      assert i < GAP_BATCH;
      assert Batch(s, slot, seen)[i] == row;
    }
  }

  lemma ReachesWithinMark(s: State, slot: Slot, seen: nat)
    requires Filed(s) && seen < s.Mark(slot)
    ensures seen < Reaches(s, slot, seen) <= s.Mark(slot)
  {
    var all := Stretch(s.rows, slot, seen, s.Mark(slot));
    StretchIsAscending(s.rows, slot, seen, s.Mark(slot));
    if Cut(s, slot, seen) {
      assert Batch(s, slot, seen)[GAP_BATCH - 1] == all[GAP_BATCH - 1];
      assert FromLane(s.rows, slot, seen, s.Mark(slot), all[GAP_BATCH - 1]);
    }
  }

  /** Only rows this instance holds, as it holds them. */
  lemma ReplyHoldsRows(s: State, theirs: Watermarks, reply: Reply, f: Fact)
    requires Filed(s) && IsReply(s, theirs, reply) && f in reply.facts
    ensures f.Name() in s.rows && s.rows[f.Name()] == f
  {
    var slot :| Behind(s, theirs, slot) && f in Batch(s, slot, MarkIn(theirs, slot));
    StretchIsAscending(s.rows, slot, MarkIn(theirs, slot), s.Mark(slot));
    var all := Stretch(s.rows, slot, MarkIn(theirs, slot), s.Mark(slot));
    var i :| 0 <= i < |all| && all[i] == f;
    assert FromLane(s.rows, slot, MarkIn(theirs, slot), s.Mark(slot), all[i]);
  }

  /** And only rows the asker has not: above its marks, and not above what `through` says of their lane. */
  lemma ReplyIsAllNews(s: State, theirs: Watermarks, reply: Reply, f: Fact)
    requires Filed(s) && IsReply(s, theirs, reply) && f in reply.facts
    ensures f.Lane() in reply.through && MarkIn(theirs, f.Lane()) < f.number <= reply.through[f.Lane()]
  {
    var slot :| Behind(s, theirs, slot) && f in Batch(s, slot, MarkIn(theirs, slot));
    var all, seen := Stretch(s.rows, slot, MarkIn(theirs, slot), s.Mark(slot)), MarkIn(theirs, slot);
    StretchIsAscending(s.rows, slot, seen, s.Mark(slot));
    var i :| 0 <= i < |Batch(s, slot, seen)| && Batch(s, slot, seen)[i] == f;
    assert all[i] == f && FromLane(s.rows, slot, seen, s.Mark(slot), all[i]);
    assert i < GAP_BATCH - 1 && Cut(s, slot, seen) ==> all[i].number < all[GAP_BATCH - 1].number;
  }

  /** `through` is above what the asker had and within what the answerer has. */
  lemma ReplyReaches(s: State, theirs: Watermarks, reply: Reply, slot: Slot)
    requires Filed(s) && IsReply(s, theirs, reply) && slot in reply.through
    ensures MarkIn(theirs, slot) < reply.through[slot] <= MarkIn(s.marks, slot)
  {
    ReachesWithinMark(s, slot, MarkIn(theirs, slot));
  }

  /** Every row held between what the asker had and `through` is in the answer. */
  lemma ReplyMissesNothing(s: State, theirs: Watermarks, reply: Reply, slot: Slot, n: nat)
    requires Filed(s) && IsReply(s, theirs, reply) && slot in reply.through
    requires MarkIn(theirs, slot) < n <= reply.through[slot] && Key(slot, n) in s.rows
    ensures s.rows[Key(slot, n)] in reply.facts
  {
    BatchReaches(s, slot, MarkIn(theirs, slot), n);
  }

  /** An answer with nothing more to come covers everything the answerer's marks say. */
  lemma LastReplyCoversAll(s: State, theirs: Watermarks, reply: Reply, slot: Slot)
    requires IsReply(s, theirs, reply) && !reply.more && MarkIn(theirs, slot) < MarkIn(s.marks, slot)
    ensures slot in reply.through && reply.through[slot] == MarkIn(s.marks, slot)
  {
    assert Behind(s, theirs, slot);
    assert !Cut(s, slot, MarkIn(theirs, slot));
  }

  /** The facts of one lane that an answer carries. */
  ghost function LaneFacts(reply: Reply, slot: Slot): set<Fact> {
    set f | f in reply.facts && f.Lane() == slot
  }

  lemma {:induction false} ClimbingIsDistinct(facts: seq<Fact>)
    requires Climbs(facts)
    ensures |set f | f in facts| == |facts|
  {
    if facts != [] {
      var rest := facts[..|facts| - 1];
      ClimbingIsDistinct(rest);
      var last := facts[|facts| - 1];
      assert (set f | f in facts) == (set f | f in rest) + {last};
      assert forall i :: 0 <= i < |rest| ==> rest[i] == facts[i] && rest[i].number < last.number;
    }
  }

  lemma LaneIsBatch(s: State, theirs: Watermarks, reply: Reply, slot: Slot)
    requires Filed(s) && IsReply(s, theirs, reply) && Behind(s, theirs, slot)
    ensures |LaneFacts(reply, slot)| == |Batch(s, slot, MarkIn(theirs, slot))|
  {
    var seen := MarkIn(theirs, slot);
    var batch := Batch(s, slot, seen);
    BatchIsOfLane(s, slot, seen);
    ClimbingIsDistinct(batch);
    forall f | f in reply.facts && f.Lane() == slot ensures f in batch {
      var other :| Behind(s, theirs, other) && f in Batch(s, other, MarkIn(theirs, other));
      BatchIsOfLane(s, other, MarkIn(theirs, other));
    }
    assert LaneFacts(reply, slot) == set f | f in batch;
  }

  lemma BatchIsOfLane(s: State, slot: Slot, seen: nat)
    requires Filed(s)
    ensures Climbs(Batch(s, slot, seen)) && forall f :: f in Batch(s, slot, seen) ==> f.Lane() == slot
  {
    var all, batch := Stretch(s.rows, slot, seen, s.Mark(slot)), Batch(s, slot, seen);
    StretchIsAscending(s.rows, slot, seen, s.Mark(slot));
    assert forall i :: 0 <= i < |batch| ==> batch[i] == all[i];
    forall f | f in batch ensures f.Lane() == slot { assert FromLane(s.rows, slot, seen, s.Mark(slot), f); }
  }

  /**
   An answer carries at most a batch of each lane, reaches the mark of every lane it carries less of, and
   has more to come exactly when of some lane it carries a whole batch.
   */
  lemma ReplyIsBounded(s: State, theirs: Watermarks, reply: Reply)
    requires Filed(s) && IsReply(s, theirs, reply)
    ensures forall slot :: slot in reply.through ==>
      && |LaneFacts(reply, slot)| <= GAP_BATCH
      && (|LaneFacts(reply, slot)| < GAP_BATCH ==> reply.through[slot] == MarkIn(s.marks, slot))
    ensures reply.more <==> exists slot :: slot in reply.through && |LaneFacts(reply, slot)| == GAP_BATCH
  {
    hide Filed, Batch;
    forall slot | slot in reply.through
      ensures |LaneFacts(reply, slot)| == |Batch(s, slot, MarkIn(theirs, slot))| <= GAP_BATCH
    {
      LaneIsBatch(s, theirs, reply, slot);
      BatchIsShort(s, slot, MarkIn(theirs, slot));
    }
  }

  lemma BatchIsShort(s: State, slot: Slot, seen: nat)
    ensures |Batch(s, slot, seen)| <= GAP_BATCH
  {
  }
}
