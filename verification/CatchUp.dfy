/** One instance catching up with another that stands still: it ends, and it ends caught up. */
module CatchUp {
  import opened Options
  import opened Facts
  import opened LedgerState
  import opened Replication
  import opened Answering

  // ---------------------------------------------------------------- reach

  /** The sum of all marks, by which an instance tells whether an answer taught it anything. */
  ghost function Reach(marks: Watermarks): nat
    decreases marks
  {
    if marks == map[] then 0
    else
      var slot :| slot in marks;
      marks[slot] + Reach(marks - {slot})
  }

  lemma {:induction false} ReachSplits(marks: Watermarks, slot: Slot)
    requires slot in marks
    ensures Reach(marks) == marks[slot] + Reach(marks - {slot})
    decreases marks
  {
    var first :| first in marks && Reach(marks) == marks[first] + Reach(marks - {first});
    if first != slot {
      ReachSplits(marks - {first}, slot);
      ReachSplits(marks - {slot}, first);
      assert marks - {first} - {slot} == marks - {slot} - {first};
    }
  }

  /** Marks that are nowhere lower reach as far; marks that are somewhere higher reach further. */
  lemma {:induction false} ReachGrows(a: Watermarks, b: Watermarks)
    requires forall slot :: MarkIn(a, slot) <= MarkIn(b, slot)
    ensures Reach(a) <= Reach(b)
    ensures (exists slot :: MarkIn(a, slot) < MarkIn(b, slot)) ==> Reach(a) < Reach(b)
    decreases a, b
  {
    if a.Keys + b.Keys != {} {
      var slot :| slot in a.Keys + b.Keys;
      var a', b' := a - {slot}, b - {slot};
      forall other ensures MarkIn(a', other) <= MarkIn(b', other) {
        assert MarkIn(a, other) <= MarkIn(b, other);
      }
      assert MarkIn(a, slot) <= MarkIn(b, slot);
      assert slot in a ==> a' != a;
      assert slot !in a ==> a' == a && b' != b;
      ReachGrows(a', b');
      if slot in a { ReachSplits(a, slot); } else { assert a' == a; }
      if slot in b { ReachSplits(b, slot); } else { assert b' == b; }
      if higher :| MarkIn(a, higher) < MarkIn(b, higher) {
        if higher != slot { assert MarkIn(a', higher) < MarkIn(b', higher); }
      }
    }
  }

  // ---------------------------------------------------------------- the gap

  /** The rows a sender holds that the marks of a receiver have not passed. */
  ghost function Gap(s: State, theirs: Watermarks): set<Key> {
    set k | k in s.rows && MarkIn(theirs, k.slot) < k.number <= MarkIn(s.marks, k.slot)
  }

  lemma {:induction false} ClimbingNamesAreDistinct(facts: seq<Fact>)
    requires Climbs(facts)
    ensures |set f | f in facts :: f.Name()| == |facts|
  {
    if facts != [] {
      var last := facts[|facts| - 1];
      var init := facts[..|facts| - 1];
      ClimbingNamesAreDistinct(init);
      assert facts == init + [last];
      assert forall i :: 0 <= i < |init| ==> init[i] == facts[i] && init[i].number < last.number;
      assert last.Name() !in set f | f in init :: f.Name();
      assert (set f | f in facts :: f.Name()) == (set f | f in init :: f.Name()) + {last.Name()};
    }
  }

  /** A cut batch is a full batch of rows of the gap, all of them at or below where it reaches. */
  lemma CutBatchFills(s: State, slot: Slot, seen: nat)
    returns (batch: set<Key>)
    requires Filed(s) && seen < s.Mark(slot) && Cut(s, slot, seen)
    ensures |batch| == GAP_BATCH
    ensures forall k :: k in batch ==>
      k in s.rows && k.slot == slot && seen < k.number <= Reaches(s, slot, seen) && k.number <= s.Mark(slot)
  {
    var all, cut := Stretch(s.rows, slot, seen, s.Mark(slot)), Batch(s, slot, seen);
    StretchIsAscending(s.rows, slot, seen, s.Mark(slot));
    assert forall f :: f in cut ==> f in all;
    assert Climbs(cut);
    ClimbingNamesAreDistinct(cut);
    batch := set f | f in cut :: f.Name();
    forall k | k in batch
      ensures k in s.rows && k.slot == slot && seen < k.number <= Reaches(s, slot, seen) && k.number <= s.Mark(slot)
    {
      var f :| f in cut && f.Name() == k;
      assert FromLane(s.rows, slot, seen, s.Mark(slot), f);
      var i :| 0 <= i < |cut| && cut[i] == f;
      assert cut[i].number <= cut[GAP_BATCH - 1].number;
    }
  }

  ghost predicate Dominates(marks: Watermarks, others: Watermarks) {
    forall slot :: MarkIn(others, slot) <= MarkIn(marks, slot)
  }

  /** The sender has seen no more of the receiver's own lanes than the receiver has written. */
  ghost predicate NotAhead(s: State, receiver: Origin, marks: Watermarks) {
    forall slot: Slot :: slot.origin == receiver ==> MarkIn(s.marks, slot) <= MarkIn(marks, slot)
  }

  /** One round of have, answer and absorb, against a sender that stands still. */
  ghost predicate Round(rules: Rules, s: State, r: State, t: State, reply: Reply) {
    exists standby, now ::
      IsReply(s, r.marks, reply) && t == Absorbed(rules, r, reply.facts, Some(reply.through), standby, now)
  }

  lemma RoundMoves(rules: Rules, s: State, r: State, t: State, reply: Reply)
    requires Round(rules, s, r, t, reply)
    ensures IsReply(s, r.marks, reply) && AbsorbsMarks(r, t, Some(reply.through)) && t.self == r.self
  {
    hide Absorbed, AbsorbsMarks, BringsAll, Filed, IsReply;
    var standby, now :|
      IsReply(s, r.marks, reply) && t == Absorbed(rules, r, reply.facts, Some(reply.through), standby, now);
    AbsorbedEffect(rules, r, reply.facts, Some(reply.through), standby, now);
  }

  /** The last answer leaves the receiver with marks at least the sender's, everywhere. */
  lemma LastRoundDominates(rules: Rules, s: State, r: State, t: State, reply: Reply)
    requires Filed(s) && NotAhead(s, r.self, r.marks) && Round(rules, s, r, t, reply) && !reply.more
    ensures Dominates(t.marks, s.marks)
  {
    hide Round, IsReply;
    RoundMoves(rules, s, r, t, reply);
    forall slot ensures MarkIn(s.marks, slot) <= MarkIn(t.marks, slot) {
      if MarkIn(r.marks, slot) < MarkIn(s.marks, slot) { LastReplyCoversAll(s, r.marks, reply, slot); }
    }
  }

  /**
   An answer with more to come is never in vain: the receiver reaches further, so it asks again,
   and at least a whole batch of rows is behind it for good.
   */
  lemma RoundWithMoreAdvances(rules: Rules, s: State, r: State, t: State, reply: Reply)
    requires Filed(s) && NotAhead(s, r.self, r.marks) && Round(rules, s, r, t, reply) && reply.more
    ensures Reach(t.marks) > Reach(r.marks)
    ensures |Gap(s, t.marks)| + GAP_BATCH <= |Gap(s, r.marks)|
    ensures NotAhead(s, t.self, t.marks)
  {
    hide Round, Cut, Reaches, Batch;
    RoundMoves(rules, s, r, t, reply);
    var slot :| Behind(s, r.marks, slot) && Cut(s, slot, MarkIn(r.marks, slot));
    var seen := MarkIn(r.marks, slot);
    assert slot in reply.through && reply.through[slot] == Reaches(s, slot, seen);
    ReachesWithinMark(s, slot, seen);
    assert slot.origin != r.self;
    assert MarkIn(r.marks, slot) < MarkIn(t.marks, slot);
    ReachGrows(r.marks, t.marks);
    var batch := CutBatchFills(s, slot, seen);
    GapShrinks(s, r.marks, t.marks, batch);
  }

  lemma GapShrinks(s: State, before: Watermarks, after: Watermarks, batch: set<Key>)
    requires Dominates(after, before)
    requires forall k :: k in batch ==>
      k in s.rows && MarkIn(before, k.slot) < k.number <= MarkIn(s.marks, k.slot) && k.number <= MarkIn(after, k.slot)
    ensures |Gap(s, after)| + |batch| <= |Gap(s, before)|
  {
    assert Gap(s, after) !! batch;
    assert Gap(s, after) + batch <= Gap(s, before);
    SubsetIsSmaller(Gap(s, after) + batch, Gap(s, before));
  }

  lemma {:induction false} SubsetIsSmaller<T>(a: set<T>, b: set<T>)
    requires a <= b
    ensures |a| <= |b|
  {
    assert b == a + (b - a);
  }

  // ---------------------------------------------------------------- the whole exchange

  /** States of the receiver, one per answer heard; every answer but the last had more to come. */
  ghost predicate Exchange(rules: Rules, s: State, receiver: seq<State>, replies: seq<Reply>) {
    && |receiver| == |replies| + 1
    && (forall n :: 0 <= n < |replies| ==> Round(rules, s, receiver[n], receiver[n + 1], replies[n]))
    && (forall n :: 0 <= n < |replies| - 1 ==> replies[n].more)
  }

  lemma {:induction false} GapAlongExchange(rules: Rules, s: State, receiver: seq<State>, replies: seq<Reply>, n: nat)
    requires Filed(s) && Exchange(rules, s, receiver, replies) && n < |replies|
    requires NotAhead(s, receiver[0].self, receiver[0].marks)
    ensures NotAhead(s, receiver[n].self, receiver[n].marks)
    ensures |Gap(s, receiver[n].marks)| + n * GAP_BATCH <= |Gap(s, receiver[0].marks)|
  {
    hide Round, NotAhead, Gap, Filed;
    if n > 0 {
      GapAlongExchange(rules, s, receiver, replies, n - 1);
      RoundWithMoreAdvances(rules, s, receiver[n - 1], receiver[n], replies[n - 1]);
    }
  }

  /**
   As long as answers have more to come each teaches something, and there are no more of them than
   the gap holds batches; the answer after those is the last, and leaves the receiver caught up.
   */
  lemma ExchangeEndsCaughtUp(rules: Rules, s: State, receiver: seq<State>, replies: seq<Reply>)
    requires Filed(s) && Exchange(rules, s, receiver, replies) && replies != []
    requires NotAhead(s, receiver[0].self, receiver[0].marks)
    ensures var last := |replies| - 1;
      if replies[last].more
      then
        && |replies| <= |Gap(s, receiver[0].marks)| / GAP_BATCH
        && Reach(receiver[last + 1].marks) > Reach(receiver[last].marks)
      else |replies| <= |Gap(s, receiver[0].marks)| / GAP_BATCH + 1 && Dominates(receiver[last + 1].marks, s.marks)
  {
    hide Round, NotAhead, Gap, Filed, Dominates;
    var last := |replies| - 1;
    GapAlongExchange(rules, s, receiver, replies, last);
    if replies[last].more {
      RoundWithMoreAdvances(rules, s, receiver[last], receiver[last + 1], replies[last]);
    } else {
      LastRoundDominates(rules, s, receiver[last], receiver[last + 1], replies[last]);
    }
  }
}
