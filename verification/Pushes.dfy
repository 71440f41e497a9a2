/**
 What a push does to the instance that hears it: which rows it brings, and exactly when it leaves the
 hearer caught up with the instance that pushed.
 */
module Pushes {
  import opened Options
  import opened Facts
  import opened LedgerState
  import opened Replication
  import opened CatchUp
  import opened Clusters
  import opened ClusterSafety
  import opened ClusterRuns

  // ---------------------------------------------------------------- which rows a note brings

  /** A proven fact of the note goes by this name. */
  ghost predicate Carries(rules: Rules, facts: seq<Fact>, k: Key) {
    exists f :: f in facts && f.Name() == k && Proven(rules, f)
  }

  /**
   A note brings in a row exactly when it carries it, proven, and the mark has not passed its number.
   So a row swept before the mark reached it comes back when it is heard again; one the mark had
   reached does not.
   */
  lemma HeardExactlyAboveMark(
    rules: Rules, s: State, facts: seq<Fact>, through: Option<Watermarks>, standby: Fact -> Time, now: Time, k: Key)
    ensures k in Absorbed(rules, s, facts, through, standby, now).rows
      <==> k in s.rows || (MarkIn(s.marks, k.slot) < k.number && Carries(rules, facts, k))
  {
    hide Absorbed, AbsorbsMarks, Filed, Proven;
    AbsorbedEffect(rules, s, facts, through, standby, now);
    var t := Absorbed(rules, s, facts, through, standby, now);
    if k in t.rows && k !in s.rows {
      assert t.rows[k] in facts && t.rows[k].Name() == k;
    }
    if Carries(rules, facts, k) && MarkIn(s.marks, k.slot) < k.number {
      var f :| f in facts && f.Name() == k && Proven(rules, f);
      assert f.Lane() == k.slot && f.number == k.number;
    }
  }

  /**
   What a sweep takes from an instance comes back with the next note that carries it exactly when the
   mark is still below it.
   */
  lemma SweptComesBackExactlyAboveMark(
    rules: Rules, s: State, grace: nat, order: seq<Missing>, now: Time,
    facts: seq<Fact>, through: Option<Watermarks>, standby: Fact -> Time, later: Time, k: Key)
    requires Sound(s) && k in s.rows && Outlived(s, k, now - grace) && Carries(rules, facts, k)
    ensures k in Absorbed(rules, Swept(s, grace, order, now), facts, through, standby, later).rows
      <==> MarkIn(s.marks, k.slot) < k.number
  {
    hide Absorbed, OwedEvery, Sound, Issues, Prunes, Outlived, Carries;
    var p, t := Pruned(s, grace, now), Swept(s, grace, order, now);
    SweptIssues(s, grace, order, now);
    NotOwedBack(s, p, t, k);
    HeardExactlyAboveMark(rules, t, facts, through, standby, later, k);
  }

  /**
   The repair writes only new numbers, so it brings back nothing the sweep took, and passes nothing
   that is missing.
   */
  lemma NotOwedBack(s: State, p: State, t: State, k: Key)
    requires Prunes(s, p) && Sound(s) && Issues(p, t) && k in s.rows && k !in p.rows
    ensures k !in t.rows
    ensures MarkIn(t.marks, k.slot) < k.number <==> MarkIn(s.marks, k.slot) < k.number
  {
    assert k == Key(k.slot, k.number);
  }

  // ---------------------------------------------------------------- when a push catches its hearer up

  /** `s` wrote `told` and became `t`; `r` heard it and became `u`. */
  ghost predicate Pushed(rules: Rules, s: State, t: State, told: seq<Fact>, r: State, u: State) {
    && Sound(s) && Issues(s, t) && Tells(s, t, told) && Closed(r)
    && (forall f :: f in told ==> Proven(rules, f))
    && exists standby, now :: u == Absorbed(rules, r, told, None, standby, now)
  }

  lemma PushedMoves(rules: Rules, s: State, t: State, told: seq<Fact>, r: State, u: State)
    requires Pushed(rules, s, t, told, r, u)
    ensures AbsorbsMarks(r, u, None) && BringsAll(rules, r, u, told) && BringsOnly(rules, r, u, told)
    ensures Closed(u)
  {
    hide Absorbed, Sound, Issues, Tells, Filed, BringsAll, BringsOnly, Proven, Closed;
    var standby, now :| u == Absorbed(rules, r, told, None, standby, now);
    AbsorbedEffect(rules, r, told, None, standby, now);
    BothWays(rules, r, u, told);
  }

  lemma BothWays(rules: Rules, r: State, u: State, told: seq<Fact>)
    requires AbsorbsOnly(rules, r, u, told) && AbsorbsMarks(r, u, None) && Closed(r)
    ensures BringsOnly(rules, r, u, told) && Closed(u)
  {
  }

  /** Where the hearer had seen all the pusher had written, the push takes it to the pusher's new mark. */
  lemma PushReaches(rules: Rules, s: State, t: State, told: seq<Fact>, r: State, u: State, slot: Slot)
    requires Sound(s) && Issues(s, t) && Tells(s, t, told) && slot.origin == s.self
    requires forall f :: f in told ==> Proven(rules, f)
    requires AbsorbsMarks(r, u, None) && BringsAll(rules, r, u, told) && Closed(u)
    requires MarkIn(s.marks, slot) <= MarkIn(r.marks, slot)
    ensures MarkIn(t.marks, slot) <= MarkIn(u.marks, slot)
  {
    hide Proven;
    forall n | MarkIn(r.marks, slot) < n <= MarkIn(t.marks, slot) ensures Key(slot, n) in u.rows {
      ToldInTurn(s, t, told, slot, n);
      var f :| f in told && f.Name() == Key(slot, n);
      assert f.Lane() == slot && f.number == n;
    }
    assert Above(u.marks, slot) !in u.rows;
  }

  /** Every number the pusher's mark moved over is in what it told. */
  lemma ToldInTurn(s: State, t: State, told: seq<Fact>, slot: Slot, n: nat)
    requires Sound(s) && Issues(s, t) && Tells(s, t, told) && slot.origin == s.self
    requires MarkIn(s.marks, slot) < n <= MarkIn(t.marks, slot)
    ensures exists f :: f in told && f.Name() == Key(slot, n)
  {
    var k := Key(slot, n);
    assert k in t.rows && k !in s.rows;
    assert t.rows[k].Name() == k;
  }

  /** Where it had not, what it lacked did not come with the push, so it stays behind. */
  lemma PushFallsShort(rules: Rules, s: State, t: State, told: seq<Fact>, r: State, u: State, slot: Slot)
    requires Issues(s, t) && Tells(s, t, told) && Closed(r)
    requires AbsorbsMarks(r, u, None) && BringsOnly(rules, r, u, told)
    requires MarkIn(r.marks, slot) < MarkIn(s.marks, slot)
    ensures MarkIn(u.marks, slot) == MarkIn(r.marks, slot) < MarkIn(t.marks, slot)
  {
    hide Proven;
    forall k | k in u.rows && k !in r.rows ensures MarkIn(s.marks, k.slot) < k.number {
      assert u.rows[k] in told && u.rows[k].Name() == k;
    }
    assert Above(r.marks, slot) !in u.rows;
    assert MarkIn(u.marks, slot) <= MarkIn(r.marks, slot) || Above(r.marks, slot) in u.rows;
  }

  /**
   In a lane of its own the pusher's new mark is reached by the hearer exactly when the hearer had
   reached its old one.
   */
  lemma PushCatchesUpLane(rules: Rules, s: State, t: State, told: seq<Fact>, r: State, u: State, slot: Slot)
    requires Pushed(rules, s, t, told, r, u) && slot.origin == s.self
    ensures MarkIn(t.marks, slot) <= MarkIn(u.marks, slot) <==> MarkIn(s.marks, slot) <= MarkIn(r.marks, slot)
  {
    hide Sound, Issues, Tells, Proven, Closed, AbsorbsMarks, BringsAll, BringsOnly;
    PushedMoves(rules, s, t, told, r, u);
    if MarkIn(s.marks, slot) <= MarkIn(r.marks, slot) {
      PushReaches(rules, s, t, told, r, u, slot);
    } else {
      PushFallsShort(rules, s, t, told, r, u, slot);
    }
  }

  /** In the lanes of others a push moves nobody. */
  lemma PushMovesNoOtherLane(rules: Rules, s: State, t: State, told: seq<Fact>, r: State, u: State, slot: Slot)
    requires Issues(s, t) && Tells(s, t, told) && Closed(r) && slot.origin != s.self
    requires AbsorbsMarks(r, u, None) && BringsOnly(rules, r, u, told)
    ensures MarkIn(t.marks, slot) == MarkIn(s.marks, slot) && MarkIn(u.marks, slot) == MarkIn(r.marks, slot)
  {
    hide Proven;
    forall k | k in u.rows && k !in r.rows ensures k.slot.origin == s.self {
      assert u.rows[k] in told && u.rows[k].Name() == k;
    }
    assert Above(r.marks, slot) !in u.rows;
    assert MarkIn(u.marks, slot) <= MarkIn(r.marks, slot) || Above(r.marks, slot) in u.rows;
  }

  /**
   The exact condition: a push leaves its hearer caught up with the pusher, in every lane there is, if
   and only if the hearer was caught up with what the pusher was before it wrote what it pushed.
   */
  lemma PushCatchesUpTheCaughtUp(rules: Rules, s: State, t: State, told: seq<Fact>, r: State, u: State)
    requires Pushed(rules, s, t, told, r, u)
    ensures Dominates(u.marks, t.marks) <==> Dominates(r.marks, s.marks)
  {
    hide Sound, Issues, Tells, Proven, Closed, AbsorbsMarks, BringsAll, BringsOnly;
    PushedMoves(rules, s, t, told, r, u);
    forall slot
      ensures MarkIn(t.marks, slot) <= MarkIn(u.marks, slot) <==> MarkIn(s.marks, slot) <= MarkIn(r.marks, slot)
    {
      if slot.origin == s.self {
        PushCatchesUpLane(rules, s, t, told, r, u, slot);
      } else {
        PushMovesNoOtherLane(rules, s, t, told, r, u, slot);
      }
    }
  }

  // ---------------------------------------------------------------- in runs

  /** The steps after which a store counts itself converged: a push heard, or an answer with nothing more to come. */
  ghost predicate MarksConverged(step: Step) {
    step.Hear? && (step.note.Push? || (step.note.Answer? && !step.note.reply.more))
  }

  lemma WritesAreIssued(s: State, act: Action, t: State)
    requires Sound(s) && Acts(s, act, t) && !act.Sweep?
    ensures Issues(s, t)
  {
    hide Sound, Issues, Inserted, Settling, Landed;
    match act
    case Insert(payment, dueAt, now) => InsertedIssues(s, payment, dueAt, now);
    case Pay(id, opens, now) => SettlingIssues(s, id, opens, now);
    case Deliver(id, url, now) => LandedIssues(s, id, url, now);
    case Reschedule =>
      IssuesReflexive(s);
      WorklistIsLocal(s, s, t);
  }

  /** At step `n` an instance writes and tells what it wrote; at step `m` another hears just that. */
  ghost predicate TellsThenHears(w: World, trace: seq<Cluster>, steps: seq<Step>, n: nat, m: nat, told: seq<Fact>)
    requires |trace| == |steps| + 1 && n < |steps| && m < |steps|
  {
    && steps[n].Act? && !steps[n].act.Sweep? && steps[n].who in trace[n].at && steps[n].who in trace[n + 1].at
    && Tells(trace[n].at[steps[n].who], trace[n + 1].at[steps[n].who], told)
    && steps[m].Hear? && steps[m].note == Push(told)
    && forall f :: f in told ==> Proven(w.RulesAt(steps[m].who), f)
  }

  /**
   In every run: hearing a push, however late, leaves the hearer with marks at least the pusher's as
   they were once it had written, if and only if the hearer's had reached the pusher's as they were
   before. So being marked converged on a push means being caught up exactly for those who were.
   */
  lemma ConvergedOnAPush(w: World, trace: seq<Cluster>, steps: seq<Step>, n: nat, m: nat, told: seq<Fact>)
    requires Run(w, trace, steps) && n < |steps| && m < |steps| && TellsThenHears(w, trace, steps, n, m, told)
    ensures MarksConverged(steps[m])
    ensures steps[m].who in trace[m].at && steps[m].who in trace[m + 1].at
    ensures var s, t := trace[n].at[steps[n].who], trace[n + 1].at[steps[n].who];
      var r, u := trace[m].at[steps[m].who], trace[m + 1].at[steps[m].who];
      Dominates(u.marks, t.marks) <==> Dominates(r.marks, s.marks)
  {
    hide Sound, Issues, Tells, Proven, Absorbed, Acts, IsReply, OwnNews, Dominates;
    hide IssuedInTurn, Immutable, BehindOrigin, NothingMissed, NothingDropped, Honest;
    EveryRunKeepsInv(w, trace, steps, n);
    EveryRunKeepsInv(w, trace, steps, m);
    assert Next(w, trace[n], trace[n + 1], steps[n]) && Next(w, trace[m], trace[m + 1], steps[m]);
    var s, t := trace[n].at[steps[n].who], trace[n + 1].at[steps[n].who];
    var r, u := trace[m].at[steps[m].who], trace[m + 1].at[steps[m].who];
    WritesAreIssued(s, steps[n].act, t);
    SoundIsClosed(r);
    assert u == Absorbed(w.RulesAt(steps[m].who), r, told, None, steps[m].standby, steps[m].now);
    PushCatchesUpTheCaughtUp(w.RulesAt(steps[m].who), s, t, told, r, u);
  }

  lemma SoundIsClosed(s: State)
    requires Sound(s)
    ensures Closed(s)
  {
  }
}
