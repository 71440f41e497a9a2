/** What holds of every run of a cluster, said of the run itself. */
module ClusterRuns {
  import opened Options
  import opened Facts
  import opened LedgerState
  import opened Replication
  import opened CatchUp
  import opened Clusters
  import opened ClusterSafety

  ghost predicate HeldAt(trace: seq<Cluster>, n: nat, i: Origin, k: Key)
    requires n < |trace|
  {
    i in trace[n].at && k in trace[n].at[i].rows
  }

  /** Instance `i` recorded this row at some time up to state `n`. */
  ghost predicate EverHeld(trace: seq<Cluster>, n: nat, i: Origin, k: Key)
    requires n < |trace|
  {
    exists m: nat :: m <= n && HeldAt(trace, m, i, k)
  }

  ghost predicate SweepTakes(trace: seq<Cluster>, steps: seq<Step>, m: nat, k: Key)
    requires m < |steps| && |trace| == |steps| + 1
  {
    && steps[m].Act? && steps[m].act.Sweep?
    && HeldAt(trace, m, steps[m].who, k) && !HeldAt(trace, m + 1, steps[m].who, k)
  }

  ghost predicate SweptSomewhere(trace: seq<Cluster>, steps: seq<Step>, n: nat, k: Key)
    requires n < |trace| && |trace| == |steps| + 1
  {
    exists m: nat :: m < n && SweepTakes(trace, steps, m, k)
  }

  ghost predicate Refuses(w: World, step: Step, k: Key) {
    step.Hear? && exists f :: f in step.note.Facts() && f.Name() == k && !Proven(w.RulesAt(step.who), f)
  }

  ghost predicate RefusedSomewhere(w: World, steps: seq<Step>, n: nat, k: Key)
    requires n <= |steps|
  {
    exists m: nat :: m < n && Refuses(w, steps[m], k)
  }

  // ---------------------------------------------------------------- the history tells the truth

  lemma {:induction false} MembersStay(w: World, trace: seq<Cluster>, steps: seq<Step>, n: nat)
    requires Run(w, trace, steps) && n < |trace|
    ensures trace[n].at.Keys == trace[0].at.Keys && trace[n].past.recorded.Keys == trace[0].at.Keys
    ensures Inv(trace[n])
  {
    hide Inv, Next;
    EveryRunKeepsInv(w, trace, steps, n);
    if n > 0 {
      MembersStay(w, trace, steps, n - 1);
      NextKeepsInv(w, trace[n - 1], trace[n], steps[n - 1]);
    }
  }

  lemma RecordedByStep(w: World, c: Cluster, d: Cluster, step: Step, i: Origin, k: Key)
    requires Next(w, c, d, step) && i in d.past.recorded && k in d.past.recorded[i]
    ensures i in c.past.recorded
    ensures k in c.past.recorded[i] || (i in d.at && k in d.at[i].rows)
  {
    hide Acts, Absorbed, IsReply, OwnNews;
  }

  lemma {:induction false} RecordedWasHeld(w: World, trace: seq<Cluster>, steps: seq<Step>, n: nat, i: Origin, k: Key)
    requires Run(w, trace, steps) && n < |trace|
    requires i in trace[n].past.recorded && k in trace[n].past.recorded[i]
    ensures EverHeld(trace, n, i, k)
  {
    hide Next;
    if n > 0 {
      RecordedByStep(w, trace[n - 1], trace[n], steps[n - 1], i, k);
      if k in trace[n - 1].past.recorded[i] {
        RecordedWasHeld(w, trace, steps, n - 1, i, k);
        var m: nat :| m <= n - 1 && HeldAt(trace, m, i, k);
        assert m <= n;
      } else {
        assert HeldAt(trace, n, i, k);
      }
    }
  }

  /** Only a sweep takes a row away. */
  lemma OnlySweepsPrune(s: State, act: Action, t: State, k: Key)
    requires Sound(s) && Acts(s, act, t) && !act.Sweep? && k in s.rows
    ensures k in t.rows
  {
    hide Sound, Issues, Inserted, Settling, Landed;
    match act
    case Insert(payment, dueAt, now) => InsertedIssues(s, payment, dueAt, now); IssuesKeeps(s, t, k);
    case Pay(id, opens, now) => SettlingIssues(s, id, opens, now); IssuesKeeps(s, t, k);
    case Deliver(id, url, now) => LandedIssues(s, id, url, now); IssuesKeeps(s, t, k);
    case Reschedule =>
  }

  lemma IssuesKeeps(s: State, t: State, k: Key)
    requires Issues(s, t) && k in s.rows
    ensures k in t.rows
  {
  }

  lemma PrunedByStep(w: World, c: Cluster, d: Cluster, step: Step, k: Key)
    requires Next(w, c, d, step) && Inv(c) && k in d.past.pruned && k !in c.past.pruned
    ensures step.Act? && step.act.Sweep? && step.who in c.at && k in c.at[step.who].rows
    ensures step.who in d.at && k !in d.at[step.who].rows
  {
    hide Acts, Absorbed, IsReply, OwnNews, Sound;
    hide IssuedInTurn, Immutable, BehindOrigin, NothingMissed, NothingDropped, Honest;
    var s := c.at[step.who];
    match step
    case Act(who, act, said) =>
      if !act.Sweep? { OnlySweepsPrune(s, act, d.at[who], k); }
    case Ask(_, _) =>
    case Tell(_, _, _) =>
    case Hear(who, note, standby, now) =>
      AbsorbedEffect(w.RulesAt(who), s, note.Facts(), note.Through(), standby, now);
  }

  lemma {:induction false} PrunedWasSwept(w: World, trace: seq<Cluster>, steps: seq<Step>, n: nat, k: Key)
    requires Run(w, trace, steps) && n < |trace| && k in trace[n].past.pruned
    ensures SweptSomewhere(trace, steps, n, k)
  {
    hide Next, Inv;
    if n > 0 {
      EveryRunKeepsInv(w, trace, steps, n - 1);
      if k in trace[n - 1].past.pruned {
        PrunedWasSwept(w, trace, steps, n - 1, k);
      } else {
        PrunedByStep(w, trace[n - 1], trace[n], steps[n - 1], k);
        assert SweepTakes(trace, steps, n - 1, k);
      }
    }
  }

  lemma RefusedByStep(w: World, c: Cluster, d: Cluster, step: Step, k: Key)
    requires Next(w, c, d, step) && k in d.past.refused && k !in c.past.refused
    ensures Refuses(w, step, k)
  {
    hide Acts, Absorbed, IsReply, OwnNews, Proven;
  }

  lemma {:induction false} RefusedWasHeard(w: World, trace: seq<Cluster>, steps: seq<Step>, n: nat, k: Key)
    requires Run(w, trace, steps) && n < |trace| && k in trace[n].past.refused
    ensures RefusedSomewhere(w, steps, n, k)
  {
    hide Next;
    if n > 0 {
      if k in trace[n - 1].past.refused {
        RefusedWasHeard(w, trace, steps, n - 1, k);
      } else {
        RefusedByStep(w, trace[n - 1], trace[n], steps[n - 1], k);
      }
    }
  }

  // ---------------------------------------------------------------- the theorems

  /**
   No silent loss. Whatever happens to the notes, every number at or below an instance's mark was
   held by that instance at some time, or was swept by some instance, or came in a note that an
   instance refused; and the origin itself has written at least that far.
   */
  lemma NoSilentLoss(w: World, trace: seq<Cluster>, steps: seq<Step>, n: nat, i: Origin, slot: Slot, number: nat)
    requires Run(w, trace, steps) && n < |trace| && i in trace[n].at
    requires 1 <= number <= trace[n].Mark(i, slot)
    ensures EverHeld(trace, n, i, Key(slot, number)) || SweptSomewhere(trace, steps, n, Key(slot, number))
            || RefusedSomewhere(w, steps, n, Key(slot, number))
    ensures slot.origin in trace[n].at && number <= trace[n].Mark(slot.origin, slot)
  {
    hide Next, Members, IssuedInTurn, Immutable, NothingDropped, Honest;
    MembersStay(w, trace, steps, n);
    var c, k := trace[n], Key(slot, number);
    assert WithinOrigin(c, slot, c.Mark(i, slot));
    assert k in c.past.recorded[i] || c.Gone(k);
    if k in c.past.recorded[i] { RecordedWasHeld(w, trace, steps, n, i, k); }
    else if k in c.past.pruned { PrunedWasSwept(w, trace, steps, n, k); }
    else { RefusedWasHeard(w, trace, steps, n, k); }
  }

  /** A row held anywhere reads the same as the row of that name held anywhere else. */
  lemma FactsNeverDiffer(w: World, trace: seq<Cluster>, steps: seq<Step>, n: nat, i: Origin, j: Origin, k: Key)
    requires Run(w, trace, steps) && n < |trace| && HeldAt(trace, n, i, k) && HeldAt(trace, n, j, k)
    ensures trace[n].at[i].rows[k] == trace[n].at[j].rows[k]
  {
    hide Next, Members, IssuedInTurn, BehindOrigin, NothingMissed, NothingDropped, Honest;
    EveryRunKeepsInv(w, trace, steps, n);
    AsItsOriginWrote(trace[n], i, k);
    AsItsOriginWrote(trace[n], j, k);
  }

  lemma AsItsOriginWrote(c: Cluster, i: Origin, k: Key)
    requires Immutable(c) && i in c.at && k in c.at[i].rows
    ensures k in c.past.issued && c.past.issued[k] == c.at[i].rows[k]
  {
  }

  /** Once a mark covers a row an instance no longer holds, it never holds it again. */
  lemma {:induction false} NoResurrection(
    w: World, trace: seq<Cluster>, steps: seq<Step>, n: nat, later: nat, i: Origin, k: Key)
    requires Run(w, trace, steps) && n <= later < |trace| && i in trace[n].at
    requires k.number <= trace[n].Mark(i, k.slot) && !HeldAt(trace, n, i, k)
    ensures i in trace[later].at && k.number <= trace[later].Mark(i, k.slot) && !HeldAt(trace, later, i, k)
    decreases later
  {
    hide Inv, Next;
    if n < later {
      NoResurrection(w, trace, steps, n, later - 1, i, k);
      EveryRunKeepsInv(w, trace, steps, later - 1);
      NextKeepsInv(w, trace[later - 1], trace[later], steps[later - 1]);
      NothingReturnsInOneStep(w, trace[later - 1], trace[later], steps[later - 1], i, k);
    }
  }

  lemma NothingReturnsInOneStep(w: World, c: Cluster, d: Cluster, step: Step, i: Origin, k: Key)
    requires Inv(c) && Next(w, c, d, step) && i in c.at && i in d.at
    requires k.number <= c.Mark(i, k.slot) && k !in c.at[i].rows
    ensures k !in d.at[i].rows
  {
    hide Sound, Issues, Prunes, Acts, Absorbed, IsReply, OwnNews;
    hide IssuedInTurn, Immutable, BehindOrigin, NothingMissed, NothingDropped, Honest;
    var s := c.at[step.who];
    match step
    case Act(who, act, said) =>
      var p := ActWrites(s, act, d.at[who]);
      if i == who { WritingReturnsNothing(s, p, d.at[who], k); }
    case Ask(_, _) =>
    case Tell(_, _, _) =>
    case Hear(who, note, standby, now) =>
      if i == who {
        HearingReturnsNothing(w.RulesAt(who), s, note.Facts(), note.Through(), standby, now, k);
      }
  }

  lemma WritingReturnsNothing(s: State, p: State, t: State, k: Key)
    requires Prunes(s, p) && Issues(p, t) && k.number <= MarkIn(s.marks, k.slot) && k !in s.rows
    ensures k !in t.rows
  {
  }

  lemma HearingReturnsNothing(
    rules: Rules, s: State, facts: seq<Fact>, through: Option<Watermarks>, standby: Fact -> Time, now: Time, k: Key)
    requires k.number <= MarkIn(s.marks, k.slot) && k !in s.rows
    ensures k !in Absorbed(rules, s, facts, through, standby, now).rows
  {
    hide Absorbed, AbsorbsMarks, Filed, BringsAll;
    AbsorbedEffect(rules, s, facts, through, standby, now);
  }

  /**
   The next number an instance would use is above every number it ever used, however much was swept
   since.
   */
  lemma NoReuse(w: World, trace: seq<Cluster>, steps: seq<Step>, n: nat, i: Origin, m: nat, k: Key)
    requires Run(w, trace, steps) && m <= n < |trace| && i in trace[n].at
    requires HeldAt(trace, m, i, k) && k.slot.origin == i
    ensures k.number < NextNumber(trace[n].at[i], k.slot.source)
  {
    hide Next, Members, Immutable, BehindOrigin, NothingMissed, NothingDropped, Honest;
    OwnMarkGrows(w, trace, steps, m, n, i, k.slot);
    EveryRunKeepsInv(w, trace, steps, m);
    OwnRowWithinMark(trace[m], i, k);
    EveryRunKeepsInv(w, trace, steps, n);
    MemberSound(trace[n], i);
    NextNumberFollowsMark(trace[n].at[i], k.slot.source);
    assert k.slot == Slot(k.slot.source, i);
  }

  lemma OwnRowWithinMark(c: Cluster, i: Origin, k: Key)
    requires Members(c) && i in c.at && k in c.at[i].rows && k.slot.origin == i
    ensures k.number <= c.Mark(i, k.slot)
  {
  }

  lemma MemberSound(c: Cluster, i: Origin)
    requires Members(c) && i in c.at
    ensures c.at[i].self == i && OwnBelowMark(c.at[i])
  {
  }

  lemma {:induction false} OwnMarkGrows(
    w: World, trace: seq<Cluster>, steps: seq<Step>, m: nat, n: nat, i: Origin, slot: Slot)
    requires Run(w, trace, steps) && m <= n < |trace| && i in trace[n].at
    ensures i in trace[m].at && trace[m].Mark(i, slot) <= trace[n].Mark(i, slot)
    decreases n
  {
    hide Inv, Next;
    if m < n {
      EveryRunKeepsInv(w, trace, steps, n - 1);
      NextKeepsInv(w, trace[n - 1], trace[n], steps[n - 1]);
      OwnMarkGrows(w, trace, steps, m, n - 1, i, slot);
    }
  }

  /**
   The moment an answer with nothing more to come is heard, however late, every mark of the
   hearer is at least what the answerer's was when it answered.
   */
  lemma LastAnswerDominates(w: World, trace: seq<Cluster>, steps: seq<Step>, n: nat, slot: Slot)
    requires Run(w, trace, steps) && n < |steps|
    requires steps[n].Hear? && steps[n].note.Answer? && !steps[n].note.reply.more
    ensures steps[n].who in trace[n + 1].at
    ensures MarkIn(steps[n].note.sender, slot) <= trace[n + 1].Mark(steps[n].who, slot)
  {
    hide Next, Inv;
    EveryRunKeepsInv(w, trace, steps, n);
    HearingDominates(w, trace[n], trace[n + 1], steps[n], slot);
  }

  lemma HearingDominates(w: World, c: Cluster, d: Cluster, step: Step, slot: Slot)
    requires Inv(c) && Next(w, c, d, step) && step.Hear? && step.note.Answer? && !step.note.reply.more
    ensures step.who in d.at && MarkIn(step.note.sender, slot) <= d.Mark(step.who, slot)
  {
    hide IssuedInTurn, Immutable, BehindOrigin, NothingMissed, NothingDropped, Absorbed, AbsorbsOnly, BringsAll, Filed;
    var who, note := step.who, step.note;
    AbsorbedEffect(w.RulesAt(who), c.at[who], note.Facts(), note.Through(), step.standby, step.now);
    assert Honest(c, note);
    assert WithinOrigin(c, slot, MarkIn(note.sender, slot));
    assert MarkIn(note.asked, slot) <= c.Mark(who, slot);
    assert c.at[who].self == who;
  }

  /**
   A row some instance holds is held, as written, by every instance whose mark has passed it, unless
   it was swept or refused.
   */
  lemma PassedMeansHeld(w: World, trace: seq<Cluster>, steps: seq<Step>, n: nat, i: Origin, j: Origin, k: Key)
    requires Run(w, trace, steps) && n < |trace| && i in trace[n].at && HeldAt(trace, n, j, k)
    requires !SweptSomewhere(trace, steps, n, k) && !RefusedSomewhere(w, steps, n, k)
    requires 1 <= k.number <= trace[n].Mark(i, k.slot)
    ensures HeldAt(trace, n, i, k) && trace[n].at[i].rows[k] == trace[n].at[j].rows[k]
  {
    hide Next, Members, IssuedInTurn, Immutable, BehindOrigin, Honest;
    MembersStay(w, trace, steps, n);
    var c := trace[n];
    assert k == Key(k.slot, k.number);
    assert k in c.past.recorded[i] || c.Gone(k);
    if k in c.past.pruned { PrunedWasSwept(w, trace, steps, n, k); }
    if k in c.past.refused { RefusedWasHeard(w, trace, steps, n, k); }
    FactsNeverDiffer(w, trace, steps, n, i, j, k);
  }

  /**
   Caught up: where nothing was swept and nothing refused, hearing the last answer leaves an
   instance holding every row, as written, that anyone holds at or below the answerer's marks.
   */
  lemma LastAnswerMeansHeld(w: World, trace: seq<Cluster>, steps: seq<Step>, n: nat, j: Origin, k: Key)
    requires Run(w, trace, steps) && n < |steps|
    requires steps[n].Hear? && steps[n].note.Answer? && !steps[n].note.reply.more
    requires HeldAt(trace, n + 1, j, k) && 1 <= k.number <= MarkIn(steps[n].note.sender, k.slot)
    requires !SweptSomewhere(trace, steps, n + 1, k) && !RefusedSomewhere(w, steps, n + 1, k)
    ensures HeldAt(trace, n + 1, steps[n].who, k)
    ensures trace[n + 1].at[steps[n].who].rows[k] == trace[n + 1].at[j].rows[k]
  {
    hide Next, Inv;
    LastAnswerDominates(w, trace, steps, n, k.slot);
    PassedMeansHeld(w, trace, steps, n + 1, steps[n].who, j, k);
  }

  /**
   No instance has ever seen more of another than that other has itself written, which is what
   catching up asks of them.
   */
  lemma NobodyIsAhead(w: World, trace: seq<Cluster>, steps: seq<Step>, n: nat, i: Origin, j: Origin)
    requires Run(w, trace, steps) && n < |trace| && i in trace[n].at && j in trace[n].at
    ensures NotAhead(trace[n].at[j], i, trace[n].at[i].marks)
  {
    hide Next, Members, IssuedInTurn, Immutable, NothingMissed, NothingDropped, Honest;
    EveryRunKeepsInv(w, trace, steps, n);
    forall slot: Slot | slot.origin == i
      ensures MarkIn(trace[n].at[j].marks, slot) <= MarkIn(trace[n].at[i].marks, slot)
    {
      assert WithinOrigin(trace[n], slot, trace[n].Mark(j, slot));
    }
  }

  lemma {:induction false} MarksGrow(
    w: World, trace: seq<Cluster>, steps: seq<Step>, m: nat, n: nat, i: Origin, slot: Slot)
    requires Run(w, trace, steps) && m <= n < |trace| && i in trace[m].at
    ensures i in trace[n].at && trace[m].Mark(i, slot) <= trace[n].Mark(i, slot)
  {
    hide Inv, Next;
    MembersStay(w, trace, steps, m);
    MembersStay(w, trace, steps, n);
    OwnMarkGrows(w, trace, steps, m, n, i, slot);
  }

  /** An instance that neither acts nor hears anything stays as it is. */
  lemma {:induction false} QuietStays(w: World, trace: seq<Cluster>, steps: seq<Step>, m: nat, n: nat, i: Origin)
    requires Run(w, trace, steps) && m <= n < |trace| && i in trace[m].at
    requires forall l :: m <= l < n && steps[l].who == i ==> steps[l].Ask? || steps[l].Tell?
    ensures i in trace[n].at && trace[n].at[i] == trace[m].at[i]
    decreases n
  {
    hide Acts, Absorbed, IsReply, OwnNews;
    if m < n {
      QuietStays(w, trace, steps, m, n - 1, i);
      assert Next(w, trace[n - 1], trace[n], steps[n - 1]);
    }
  }

  /** At step `p` instance `i` hears another's last answer, made from these marks. */
  ghost predicate HearsLast(steps: seq<Step>, p: nat, i: Origin, marks: Watermarks)
    requires p < |steps|
  {
    && steps[p].Hear? && steps[p].who == i
    && steps[p].note.Answer? && !steps[p].note.reply.more && steps[p].note.sender == marks
  }

  /** A number the mark has passed, of a row nobody swept or refused. */
  ghost predicate CoveredInPeace(w: World, trace: seq<Cluster>, steps: seq<Step>, n: nat, i: Origin, k: Key)
    requires n < |trace| && |trace| == |steps| + 1 && i in trace[n].at
  {
    && 1 <= k.number <= trace[n].Mark(i, k.slot)
    && !SweptSomewhere(trace, steps, n, k) && !RefusedSomewhere(w, steps, n, k)
  }

  /**
   In sync: two instances that have each heard the other's last answer, neither's marks having moved
   since it answered, have the same marks everywhere; and where nothing was swept and nothing refused
   they hold the same rows up to them.
   */
  lemma MutualAnswersAgree(
    w: World, trace: seq<Cluster>, steps: seq<Step>, n: nat, i: Origin, j: Origin, p: nat, q: nat, k: Key)
    requires Run(w, trace, steps) && p < n < |trace| && q < n && i in trace[n].at && j in trace[n].at
    requires HearsLast(steps, p, i, trace[n].at[j].marks) && HearsLast(steps, q, j, trace[n].at[i].marks)
    ensures trace[n].Mark(i, k.slot) == trace[n].Mark(j, k.slot)
    ensures CoveredInPeace(w, trace, steps, n, i, k) ==>
      && (HeldAt(trace, n, i, k) <==> HeldAt(trace, n, j, k))
      && (HeldAt(trace, n, i, k) ==> trace[n].at[i].rows[k] == trace[n].at[j].rows[k])
  {
    hide Next, Inv, SweptSomewhere, RefusedSomewhere;
    LastAnswerDominates(w, trace, steps, p, k.slot);
    MarksGrow(w, trace, steps, p + 1, n, i, k.slot);
    LastAnswerDominates(w, trace, steps, q, k.slot);
    MarksGrow(w, trace, steps, q + 1, n, j, k.slot);
    if CoveredInPeace(w, trace, steps, n, i, k) {
      if HeldAt(trace, n, i, k) { PassedMeansHeld(w, trace, steps, n, j, i, k); }
      if HeldAt(trace, n, j, k) { PassedMeansHeld(w, trace, steps, n, i, j, k); }
    }
  }
}
