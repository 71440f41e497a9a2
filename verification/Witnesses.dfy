/** Runs that show what the theorems leave open does happen: each is built step by step from empty instances. */
module Witnesses {
  import opened Options
  import opened Facts
  import opened LedgerState
  import opened Replication
  import opened Answering
  import opened CatchUp
  import opened Clusters
  import opened ClusterSafety
  import opened ClusterRuns
  import opened Pushes
  import opened Worklist
  import opened WorklistRuns
  import opened OrderFree
  import opened Writing
  import Replay

  // ---------------------------------------------------------------- building a run

  /** Two empty instances and an empty wire. */
  ghost function Beginning(): Cluster {
    Cluster(map[0 := Empty(0), 1 := Empty(1)], {}, History(map[], map[0 := {}, 1 := {}], {}, {}))
  }

  /** Everything is genuine, and deliveries are taken over at once. */
  ghost function Trusting(): World {
    World((fact: Fact) => true, (who: Origin) => (fact: Fact) => 0)
  }

  lemma RunBegins()
    ensures RunOf([Beginning()], [])
  {
  }

  ghost predicate RunOf(trace: seq<Cluster>, steps: seq<Step>) {
    |trace| == |steps| + 1 && Run(Trusting(), trace, steps)
  }

  /** The last cluster of a run so far. */
  ghost function Last(trace: seq<Cluster>): Cluster
    requires trace != []
  {
    trace[|trace| - 1]
  }

  ghost predicate Member(c: Cluster, who: Origin) {
    who in c.at && who in c.past.recorded
  }

  ghost predicate Continues(trace: seq<Cluster>, steps: seq<Step>, longer: seq<Cluster>, more: seq<Step>, step: Step) {
    && |trace| == |steps| + 1 && |longer| == |trace| + 1 && more == steps + [step]
    && (forall n :: 0 <= n < |trace| ==> longer[n] == trace[n])
    && Last(longer).past.recorded.Keys == Last(trace).past.recorded.Keys
  }

  lemma RunGoesOn(trace: seq<Cluster>, steps: seq<Step>, d: Cluster, step: Step)
    returns (longer: seq<Cluster>, more: seq<Step>)
    requires RunOf(trace, steps) && Next(Trusting(), Last(trace), d, step)
    requires d.past.recorded.Keys == Last(trace).past.recorded.Keys
    ensures RunOf(longer, more) && Continues(trace, steps, longer, more, step) && Last(longer) == d
  {
    hide Next, Start;
    longer, more := trace + [d], steps + [step];
    forall n | 0 <= n < |more| ensures Next(Trusting(), longer[n], longer[n + 1], more[n]) {
      if n < |steps| { assert Next(Trusting(), trace[n], trace[n + 1], steps[n]); }
    }
  }

  /** An instance acts, and pushes some rows it holds, or nothing. */
  lemma Acting(trace: seq<Cluster>, steps: seq<Step>, who: Origin, act: Action, t: State, said: set<Note>)
    returns (longer: seq<Cluster>, more: seq<Step>)
    requires RunOf(trace, steps) && Member(Last(trace), who)
    requires Acts(Last(trace).at[who], act, t) && OwnNews(t, said)
    ensures RunOf(longer, more) && Continues(trace, steps, longer, more, Act(who, act, said))
    ensures Last(longer).at == Last(trace).at[who := t] && Last(longer).wire == Last(trace).wire + said
  {
    hide Acts, Run, OwnNews;
    longer, more := RunGoesOn(trace, steps, Moved(Last(trace), who, t, said, {}), Act(who, act, said));
  }

  /** An instance hears a push that is on the wire. */
  lemma Hearing(trace: seq<Cluster>, steps: seq<Step>, who: Origin, told: seq<Fact>, now: Time)
    returns (longer: seq<Cluster>, more: seq<Step>)
    requires RunOf(trace, steps) && Member(Last(trace), who) && Push(told) in Last(trace).wire
    ensures RunOf(longer, more)
    ensures Continues(trace, steps, longer, more, Hear(who, Push(told), Later(), now))
    ensures Last(longer).wire == Last(trace).wire
    ensures Last(longer).at == Last(trace).at[who := Heard(who, Last(trace).at[who], told, now)]
  {
    hide Run, Absorbed;
    var rules := Trusting().RulesAt(who);
    var d := Moved(Last(trace), who, Heard(who, Last(trace).at[who], told, now), {}, RefusedIn(rules, told));
    longer, more := RunGoesOn(trace, steps, d, Hear(who, Push(told), Later(), now));
  }

  lemma Asking(trace: seq<Cluster>, steps: seq<Step>, who: Origin, to: Origin)
    returns (longer: seq<Cluster>, more: seq<Step>)
    requires RunOf(trace, steps) && Member(Last(trace), who)
    ensures RunOf(longer, more) && Continues(trace, steps, longer, more, Ask(who, to))
    ensures Last(longer).at == Last(trace).at
    ensures Last(longer).wire == Last(trace).wire + {Have(who, to, Last(trace).at[who].marks)}
  {
    hide Run;
    var c := Last(trace);
    longer, more := RunGoesOn(trace, steps, c.(wire := c.wire + {Have(who, to, c.at[who].marks)}), Ask(who, to));
  }

  lemma Telling(trace: seq<Cluster>, steps: seq<Step>, who: Origin, have: Note, reply: Reply)
    returns (longer: seq<Cluster>, more: seq<Step>)
    requires RunOf(trace, steps) && Member(Last(trace), who) && have in Last(trace).wire && have.Have? && have.to == who
    requires IsReply(Last(trace).at[who], have.marks, reply)
    ensures RunOf(longer, more) && Continues(trace, steps, longer, more, Tell(who, have, reply))
    ensures Last(longer).at == Last(trace).at
    ensures Last(longer).wire
      == Last(trace).wire + {Note.Answer(have.asker, reply, have.marks, Last(trace).at[who].marks)}
  {
    hide Run, IsReply;
    var c := Last(trace);
    var note := Note.Answer(have.asker, reply, have.marks, c.at[who].marks);
    longer, more := RunGoesOn(trace, steps, c.(wire := c.wire + {note}), Tell(who, have, reply));
  }

  /** An instance hears an answer to its own question. */
  lemma HearingAnswer(trace: seq<Cluster>, steps: seq<Step>, who: Origin, note: Note, now: Time)
    returns (longer: seq<Cluster>, more: seq<Step>)
    requires RunOf(trace, steps) && Member(Last(trace), who)
    requires note in Last(trace).wire && note.Answer? && note.to == who
    ensures RunOf(longer, more) && Continues(trace, steps, longer, more, Hear(who, note, Later(), now))
    ensures Last(longer).at == Last(trace).at[who :=
      Absorbed(Trusting().RulesAt(who), Last(trace).at[who], note.reply.facts, Some(note.reply.through), Later(), now)]
  {
    hide Run, Absorbed;
    var rules, s := Trusting().RulesAt(who), Last(trace).at[who];
    var t := Absorbed(rules, s, note.reply.facts, Some(note.reply.through), Later(), now);
    var d := Moved(Last(trace), who, t, {}, RefusedIn(rules, note.reply.facts));
    longer, more := RunGoesOn(trace, steps, d, Hear(who, note, Later(), now));
  }

  ghost function Later(): Fact -> Time {
    (fact: Fact) => 0
  }

  ghost function Heard(who: Origin, r: State, told: seq<Fact>, now: Time): State {
    Absorbed(Trusting().RulesAt(who), r, told, None, Later(), now)
  }

  // ---------------------------------------------------------------- what single steps leave

  lemma EmptyIsSound(self: Origin)
    ensures Sound(Empty(self)) && Watchful(Empty(self)) && Consistent(Empty(self))
  {
  }

  ghost function AcceptedAs(s: State, payment: Payment, now: Time): Fact {
    AcceptedFact(
      s.self, MarkIn(s.marks, Slot(Accepted, s.self)) + 1, payment.id, payment, now, payment.expiresAt)
  }

  /** A payment nobody here has heard of is filed under the next number, watched, and known from then on. */
  lemma InsertsNew(s: State, payment: Payment, dueAt: Time, now: Time)
    requires Sound(s) && !s.Settled(payment.id) && payment.id !in s.schedule
    requires forall k :: k in s.rows && s.rows[k].AcceptedFact? ==> s.rows[k].id != payment.id
    ensures var t, fact := Inserted(s, payment, dueAt, now), AcceptedAs(s, payment, now);
      && fact.Name() !in s.rows && t.rows == s.rows[fact.Name() := fact] && t.self == s.self
      && t.schedule == s.schedule[payment.id := Watch(payment.expiresAt, Some(dueAt), false)]
      && Sound(t) && Issues(s, t)
      && MarkIn(t.marks, fact.Lane()) == fact.number
      && (forall slot :: slot != fact.Lane() ==> MarkIn(t.marks, slot) == MarkIn(s.marks, slot))
  {
    hide Recorded, Sound, Issues, Read, NextNumber, State.Settled;
    NobodyAccepted(s, payment.id);
    SoundOwnLanes(s);
    NextNumberFollowsMark(s, Accepted);
    var fact := AcceptedAs(s, payment, now);
    var r, t := Recorded(s, fact, 0, now), Inserted(s, payment, dueAt, now);
    RecordedStaysSound(s, fact, 0, now);
    StillUnsettled(s, r, fact, payment.id);
    TakenIssues(s, payment, dueAt, now);
    IssuesKeepsSelf(s, t);
    MarkFollows(s, t, fact);
  }

  lemma StillUnsettled(s: State, r: State, fact: Fact, id: Id)
    requires fact.AcceptedFact? && r.rows == s.rows[fact.Name() := fact] && fact.Name() !in s.rows && !s.Settled(id)
    ensures !r.Settled(id)
  {
  }

  /** A single fact, proven and not known, is filed as it is; nothing else comes with it. */
  lemma HearsOne(who: Origin, r: State, fact: Fact, now: Time)
    requires Proven(Trusting().RulesAt(who), fact) && !r.Known(fact.Name()) && Closed(r)
    ensures var u := Heard(who, r, [fact], now);
      && u.self == r.self && u.rows == r.rows[fact.Name() := fact] && Closed(u) && (Filed(r) ==> Filed(u))
      && u.schedule == (
        if fact.PaidFact? then r.schedule - {fact.id}
        else if fact.AcceptedFact? && fact.id !in r.schedule && !u.Settled(fact.id)
        then r.schedule[fact.id := Watch(fact.expiresAt, Some(0), false)] else r.schedule)
      && (forall slot, n :: MarkIn(r.marks, slot) < n <= MarkIn(u.marks, slot) ==> Key(slot, n) in u.rows)
      && (forall slot :: MarkIn(r.marks, slot) <= MarkIn(u.marks, slot))
  {
    hide Proven, State.Known, Learned, LearnedAll, Filed, Closed, State.Settled;
    var rules := Trusting().RulesAt(who);
    LearnsAlone(rules, r, fact, Later(), now);
    LearnedStep(rules, r, fact, Later(), now);
    LearnsUnknown(rules, r, fact, now);
    ExtendsMarks(r, Learned(rules, r, fact, Later(), now));
  }

  lemma LearnsAlone(rules: Rules, r: State, fact: Fact, standby: Fact -> Time, now: Time)
    ensures Absorbed(rules, r, [fact], None, standby, now) == Learned(rules, r, fact, standby, now)
  {
    hide Learned;
    assert InOrder([fact]) == [fact];
    assert [fact][1..] == [];
    assert LearnedAll(rules, r, [fact], standby, now)
      == LearnedAll(rules, Learned(rules, r, fact, standby, now), [], standby, now);
  }

  lemma ExtendsMarks(r: State, u: State)
    requires Extends(r, u)
    ensures u.self == r.self && (Closed(r) ==> Closed(u))
    ensures forall slot, n :: MarkIn(r.marks, slot) < n <= MarkIn(u.marks, slot) ==> Key(slot, n) in u.rows
    ensures forall slot :: MarkIn(r.marks, slot) <= MarkIn(u.marks, slot)
  {
  }

  lemma LearnsUnknown(rules: Rules, r: State, fact: Fact, now: Time)
    requires Proven(rules, fact) && !r.Known(fact.Name())
    ensures var u := Learned(rules, r, fact, Later(), now);
      && u.rows == r.rows[fact.Name() := fact]
      && u.schedule == (
        if fact.PaidFact? then r.schedule - {fact.id}
        else if fact.AcceptedFact? && fact.id !in r.schedule && !u.Settled(fact.id)
        then r.schedule[fact.id := Watch(fact.expiresAt, Some(0), false)] else r.schedule)
  {
    hide Recorded, Proven;
    RecordedFiles(r, fact, rules.takeoverAt(fact), now);
    var t := Recorded(r, fact, rules.takeoverAt(fact), now);
    var u := Learned(rules, r, fact, Later(), now);
    assert u.rows == t.rows;
    assert u.Settled(fact.id) == t.Settled(fact.id);
  }

  /** Sweeping a ledger none of whose rows accepts a payment with webhooks repairs nothing. */
  lemma SweepsQuietly(s: State, grace: nat, now: Time)
    requires forall k :: k in s.rows && s.rows[k].AcceptedFact? ==> s.rows[k].payment.webhooks == []
    ensures Acts(s, Sweep(grace, [], now), Pruned(s, grace, now))
  {
    hide Outlived, State.HasRow;
    assert Unowed(Pruned(s, grace, now), now) == {};
  }

  // ---------------------------------------------------------------- one instance a push ahead of another

  const ONE: Payment := Payment("one", 0, 10, "", None, 0, [])
  const TWO: Payment := Payment("two", 0, 10, "", None, 0, [])

  /** The second payment instance 0 takes on, as it is filed. */
  const SECOND: Fact := AcceptedFact(0, 2, "two", TWO, 0, 10)

  const LANE: Slot := Slot(Accepted, 0)

  lemma InsertActs(s: State, payment: Payment, now: Time)
    ensures Acts(s, Action.Insert(payment, 0, now), Inserted(s, payment, 0, now))
  {
  }

  ghost function OneTaken(): State {
    Inserted(Empty(0), ONE, 0, 0)
  }

  ghost function TwoTaken(): State {
    Inserted(OneTaken(), TWO, 0, 0)
  }

  lemma OneIsTaken()
    ensures var s, one := OneTaken(), AcceptedFact(0, 1, "one", ONE, 0, 10);
      && s.self == 0 && Sound(s) && s.rows == map[one.Name() := one] && s.schedule.Keys == {"one"}
      && (forall slot :: MarkIn(s.marks, slot) == if slot == LANE then 1 else 0)
  {
    hide Inserted, Sound, Issues;
    EmptyIsSound(0);
    InsertsNew(Empty(0), ONE, 0, 0);
  }

  lemma TwoAreTaken()
    ensures var s, t := OneTaken(), TwoTaken();
      && t.self == 0 && Sound(t) && SECOND.Name() !in s.rows && t.rows == s.rows[SECOND.Name() := SECOND]
      && (forall slot :: MarkIn(t.marks, slot) == if slot == LANE then 2 else 0)
      && Tells(s, t, [SECOND])
  {
    hide Inserted, Sound, Issues;
    OneIsTaken();
    InsertsNew(OneTaken(), TWO, 0, 0);
  }

  /** Instance 0 takes on a payment and finds no peer to tell. */
  lemma TakesTheFirst() returns (trace: seq<Cluster>, steps: seq<Step>)
    ensures RunOf(trace, steps) && |steps| == 1 && |trace| == 2 && trace[0] == Beginning()
    ensures trace[1].at == map[0 := OneTaken(), 1 := Empty(1)] && trace[1].wire == {}
    ensures trace[1].past.recorded.Keys == {0, 1}
  {
    hide RunOf, Inserted, Acts;
    RunBegins();
    InsertActs(Empty(0), ONE, 0);
    trace, steps := Acting([Beginning()], [], 0, Action.Insert(ONE, 0, 0), OneTaken(), {});
  }

  /** Instance 0 takes on two payments and pushes only the second, the first having found no peer. */
  lemma PushesOnlyTheSecond() returns (trace: seq<Cluster>, steps: seq<Step>)
    ensures RunOf(trace, steps) && |steps| == 2 && |trace| == 3
    ensures trace[1].at == map[0 := OneTaken(), 1 := Empty(1)]
    ensures trace[2].at == map[0 := TwoTaken(), 1 := Empty(1)] && trace[2].wire == {Push([SECOND])}
    ensures trace[2].past.recorded.Keys == {0, 1}
    ensures steps[1].Act? && steps[1].who == 0 && !steps[1].act.Sweep?
  {
    hide RunOf, Inserted, Acts;
    TwoAreTaken();
    InsertActs(OneTaken(), TWO, 0);
    trace, steps := TakesTheFirst();
    trace, steps := Acting(trace, steps, 0, Action.Insert(TWO, 0, 0), TwoTaken(), {Push([SECOND])});
  }

  /** What instance 1 makes of the push: a row above a gap, and no mark. */
  lemma HearsOnlyTheSecond()
    ensures var r := Heard(1, Empty(1), [SECOND], 0);
      && r.self == 1 && r.rows == map[SECOND.Name() := SECOND] && Closed(r) && Filed(r)
      && forall slot :: MarkIn(r.marks, slot) == 0
  {
    hide Absorbed;
    HearsOne(1, Empty(1), SECOND, 0);
    var r := Heard(1, Empty(1), [SECOND], 0);
    forall slot ensures MarkIn(r.marks, slot) == 0 {
      assert Key(slot, 1) !in r.rows;
    }
  }

  /**
   A push can fall short: in this run instance 1, one payment behind, hears the next push, counts
   itself converged, and is still behind.
   */
  lemma PushCanFallShort() returns (trace: seq<Cluster>, steps: seq<Step>)
    ensures RunOf(trace, steps) && |steps| == 3
    ensures TellsThenHears(Trusting(), trace, steps, 1, 2, [SECOND])
    ensures MarksConverged(steps[2]) && steps[2].who == 1 && trace[3].at.Keys == {0, 1}
    ensures !Dominates(trace[3].at[1].marks, trace[3].at[0].marks)
  {
    hide RunOf, Acts, Absorbed, Inserted;
    trace, steps := PushesOnlyTheSecond();
    TwoAreTaken();
    HearsOnlyTheSecond();
    trace, steps := Hearing(trace, steps, 1, [SECOND], 0);
    assert MarkIn(trace[3].at[0].marks, LANE) == 2 && MarkIn(trace[3].at[1].marks, LANE) == 0;
  }

  // ---------------------------------------------------------------- a row that comes back

  /** Once the payment has expired, the sweep takes the row the mark never reached. */
  lemma SweepsTheSecond()
    ensures var r := Heard(1, Empty(1), [SECOND], 0); var p := Pruned(r, 0, 100);
      && Acts(r, Sweep(0, [], 100), p) && p.rows == map[] && p.marks == r.marks && p.self == 1
  {
    hide Heard;
    HearsOnlyTheSecond();
    var r := Heard(1, Empty(1), [SECOND], 0);
    assert forall k :: k in r.rows ==> Outlived(r, k, 100);
    SweepsQuietly(r, 0, 100);
  }

  /**
   A row swept before the mark reached it can come back: in this run instance 1 hears a push ahead of
   a gap, sweeps it, hears the same push again, and holds it again.
   */
  lemma SweptRowComesBack() returns (trace: seq<Cluster>, steps: seq<Step>)
    ensures RunOf(trace, steps) && |steps| == 5
    ensures HeldAt(trace, 3, 1, SECOND.Name())
    ensures steps[3].Act? && steps[3].who == 1 && steps[3].act.Sweep? && !HeldAt(trace, 4, 1, SECOND.Name())
    ensures steps[2].Hear? && steps[4].Hear? && steps[4].note == steps[2].note
    ensures HeldAt(trace, 5, 1, SECOND.Name())
  {
    hide RunOf, Acts, Absorbed, Inserted, Pruned, Heard, Absorbed;
    trace, steps := PushesOnlyTheSecond();
    HearsOnlyTheSecond();
    SweepsTheSecond();
    var r := Heard(1, Empty(1), [SECOND], 0);
    var p := Pruned(r, 0, 100);
    trace, steps := Hearing(trace, steps, 1, [SECOND], 0);
    trace, steps := Acting(trace, steps, 1, Sweep(0, [], 100), p, {});
    BackAgain(p);
    trace, steps := Hearing(trace, steps, 1, [SECOND], 100);
  }

  lemma BackAgain(p: State)
    requires p.rows == map[] && forall slot :: MarkIn(p.marks, slot) == 0
    ensures SECOND.Name() in Heard(1, p, [SECOND], 100).rows
  {
    hide Absorbed;
    assert SECOND in [SECOND] && Proven(Trusting().RulesAt(1), SECOND);
    HeardExactlyAboveMark(Trusting().RulesAt(1), p, [SECOND], None, Later(), 100, SECOND.Name());
  }

  // ---------------------------------------------------------------- a number covered and never held

  const NOTHING_LEFT: Reply := Reply([], false, map[LANE := 1])

  lemma SweepsTheFirst()
    ensures var s := OneTaken(); var p := Pruned(s, 0, 100);
      Acts(s, Sweep(0, [], 100), p) && p.rows == map[] && p.marks == s.marks
  {
    hide Inserted;
    OneIsTaken();
    assert forall k :: k in OneTaken().rows ==> Outlived(OneTaken(), k, 100);
    SweepsQuietly(OneTaken(), 0, 100);
  }

  lemma EmptyStretch(rows: map<Key, Fact>, slot: Slot, above: nat, upTo: nat)
    requires rows == map[]
    ensures Stretch(rows, slot, above, upTo) == []
    decreases upTo - above
  {
    if above < upTo { EmptyStretch(rows, slot, above + 1, upTo); }
  }

  /** Asked by one who has seen nothing, an instance that has swept its only row says how far it got, and no more. */
  lemma AnswersWithNothing(p: State)
    requires p.rows == map[] && forall slot :: MarkIn(p.marks, slot) == if slot == LANE then 1 else 0
    ensures IsReply(p, map[], NOTHING_LEFT)
  {
    forall slot ensures Batch(p, slot, 0) == [] { EmptyStretch(p.rows, slot, 0, p.Mark(slot)); }
    forall slot ensures Behind(p, map[], slot) <==> slot == LANE {
      assert MarkIn(p.marks, slot) == if slot == LANE then 1 else 0;
    }
  }

  lemma CoversWithoutHolding(p: State)
    ensures var u := Absorbed(Trusting().RulesAt(1), Empty(1), [], Some(NOTHING_LEFT.through), Later(), 100);
      u.rows == map[] && MarkIn(u.marks, LANE) >= 1
  {
    hide Absorbed;
    var rules, through := Trusting().RulesAt(1), Some(NOTHING_LEFT.through);
    var u := Absorbed(rules, Empty(1), [], through, Later(), 100);
    AbsorbedEffect(rules, Empty(1), [], through, Later(), 100);
    forall k ensures k !in u.rows {
      HeardExactlyAboveMark(rules, Empty(1), [], through, Later(), 100, k);
    }
    assert LANE in NOTHING_LEFT.through;
  }

  ghost function OneSwept(): State {
    Pruned(OneTaken(), 0, 100)
  }

  /** Instance 0 sweeps its only row, and only then instance 1 asks. */
  lemma AsksTooLate() returns (trace: seq<Cluster>, steps: seq<Step>)
    ensures RunOf(trace, steps) && |steps| == 3 && |trace| == 4
    ensures forall m: nat :: m <= 3 ==> 1 in trace[m].at && trace[m].at[1] == Empty(1)
    ensures Last(trace).at == map[0 := OneSwept(), 1 := Empty(1)] && Last(trace).past.recorded.Keys == {0, 1}
    ensures Last(trace).wire == {Have(1, 0, map[])}
  {
    hide RunOf, Acts, Inserted, Pruned;
    SweepsTheFirst();
    trace, steps := TakesTheFirst();
    trace, steps := Acting(trace, steps, 0, Sweep(0, [], 100), OneSwept(), {});
    trace, steps := Asking(trace, steps, 1, 0);
  }

  /**
   A mark can cover a number its instance never held: in this run instance 0 sweeps its only row
   before instance 1 asks, so the answer covers the row without bringing it.
   */
  lemma CoveredWithoutBeingHeld() returns (trace: seq<Cluster>, steps: seq<Step>)
    ensures RunOf(trace, steps) && |steps| == 5 && 1 in trace[5].at
    ensures trace[5].Mark(1, LANE) >= 1 && !EverHeld(trace, 5, 1, Key(LANE, 1))
  {
    hide RunOf, Absorbed, Inserted, Pruned, IsReply;
    OneIsTaken();
    SweepsTheFirst();
    AnswersWithNothing(OneSwept());
    CoversWithoutHolding(OneSwept());
    trace, steps := AsksTooLate();
    trace, steps := Telling(trace, steps, 0, Have(1, 0, map[]), NOTHING_LEFT);
    trace, steps := HearingAnswer(trace, steps, 1, Note.Answer(1, NOTHING_LEFT, map[], OneSwept().marks), 100);
    assert forall m: nat :: m <= 5 ==> 1 in trace[m].at && trace[m].at[1].rows == map[];
  }

  // ---------------------------------------------------------------- a payment stranded

  const EARLY: Payment := Payment("x", 0, 10, "", None, 0, [])
  const LATE: Payment := Payment("x", 0, 90, "", None, 0, [])
  const EARLY_ROW: Fact := AcceptedFact(0, 1, "x", EARLY, 0, 10)
  const LATE_ROW: Fact := AcceptedFact(1, 1, "x", LATE, 0, 90)

  ghost function Early(): State {
    Inserted(Empty(0), EARLY, 0, 0)
  }

  ghost function Disagreeing(): State {
    Heard(0, Early(), [LATE_ROW], 0)
  }

  lemma Disagrees()
    ensures var s := Disagreeing();
      && s.rows == map[EARLY_ROW.Name() := EARLY_ROW, LATE_ROW.Name() := LATE_ROW]
      && s.schedule == map["x" := Watch(10, Some(0), false)]
    ensures Inserted(Empty(1), LATE, 0, 0).rows == map[LATE_ROW.Name() := LATE_ROW]
  {
    hide Inserted, Sound, Issues, Absorbed;
    EmptyIsSound(0);
    EmptyIsSound(1);
    InsertsNew(Empty(0), EARLY, 0, 0);
    InsertsNew(Empty(1), LATE, 0, 0);
    SoundIsClosed(Early());
    HearsOne(0, Early(), LATE_ROW, 0);
  }

  lemma DisagreementIsStranded(s: State)
    requires s.rows == map[EARLY_ROW.Name() := EARLY_ROW, LATE_ROW.Name() := LATE_ROW]
    requires s.schedule == map["x" := Watch(10, Some(0), false)]
    ensures Complete(s) && !Complete(Pruned(s, 0, 50)) && Acts(s, Sweep(0, [], 50), Pruned(s, 0, 50))
  {
    hide Pruned, Acts;
    assert s.rows[EARLY_ROW.Name()] == EARLY_ROW && s.rows[LATE_ROW.Name()] == LATE_ROW;
    assert ("x", 10) in AcceptedPairs(s.rows) && ("x", 90) in AcceptedPairs(s.rows);
    assert PaidIds(s.rows) == {};
    PrunedKeepsComplete(s, 0, 50);
    SweepsQuietly(s, 0, 50);
  }

  /**
   Disagreement is reached: in this run two instances accept one payment with different expiries, and
   a sweep leaves it accepted, unsettled and unwatched.
   */
  lemma DisagreementStrandsInARun() returns (trace: seq<Cluster>, steps: seq<Step>)
    ensures RunOf(trace, steps) && |steps| == 4 && 0 in trace[3].at && 0 in trace[4].at
    ensures steps[3].Act? && steps[3].who == 0 && steps[3].act.Sweep?
    ensures Complete(trace[3].at[0]) && !Complete(trace[4].at[0])
  {
    hide RunOf, Acts, Absorbed, Inserted, Pruned, Heard, Complete;
    RunBegins();
    Disagrees();
    DisagreementIsStranded(Disagreeing());
    InsertActs(Empty(0), EARLY, 0);
    InsertActs(Empty(1), LATE, 0);
    trace, steps := Acting([Beginning()], [], 0, Action.Insert(EARLY, 0, 0), Early(), {});
    trace, steps := Acting(
      trace, steps, 1, Action.Insert(LATE, 0, 0), Inserted(Empty(1), LATE, 0, 0), {Push([LATE_ROW])});
    trace, steps := Hearing(trace, steps, 0, [LATE_ROW], 0);
    trace, steps := Acting(trace, steps, 0, Sweep(0, [], 50), Pruned(Disagreeing(), 0, 50), {});
  }

  // ---------------------------------------------------------------- a settlement lost to its trigger

  const TRIGGERED: Payment := Payment("x", 0, 90, "", Some("t"), 1, [])
  const OLDER: Fact := PaidFact(0, 1, "x", TRIGGERED, 1)
  const NEWER: Fact := PaidFact(1, 1, "x", TRIGGERED, 2)

  /** A payment without webhooks, accepted once and not settled, settles with one row. */
  lemma SettlesAlone(s: State, k: Key, now: Time)
    requires Sound(s) && k in s.rows && s.rows[k].AcceptedFact? && !s.Settled(s.rows[k].id)
    requires s.rows[k].payment.id == s.rows[k].id && s.rows[k].payment.webhooks == []
    requires forall j :: j in s.rows && s.rows[j].AcceptedFact? && s.rows[j].id == s.rows[k].id ==> j == k
    ensures var t := Settling(s, s.rows[k].id, true, now);
      var paid := PaidFact(
        s.self, MarkIn(s.marks, Slot(Paid, s.self)) + 1, s.rows[k].id, s.rows[k].payment, now);
      && paid.Name() !in s.rows && t.rows == s.rows[paid.Name() := paid] && t.self == s.self && Sound(t)
      && MarkIn(t.marks, paid.Lane()) == paid.number
      && (forall slot :: slot != paid.Lane() ==> MarkIn(t.marks, slot) == MarkIn(s.marks, slot))
  {
    hide Recorded, Sound, Issues, Read, NextNumber, State.Settled;
    var payment := s.rows[k].payment;
    ReadsTheOnlyRow(s, k);
    SoundOwnLanes(s);
    NextNumberFollowsMark(s, Paid);
    assert payment.(webhooks := []) == payment;
    var paid := PaidFact(s.self, NextNumber(s, Paid), payment.id, payment, now);
    RecordedStaysSound(s, paid, 0, now);
    OpenedIssues(s, payment, now);
    assert Settling(s, payment.id, true, now) == Opened(s, payment, now);
    assert OwedAll(Recorded(s, paid, 0, now), payment.id, [], Body(payment, now), now) == Recorded(s, paid, 0, now);
    IssuesKeepsSelf(s, Opened(s, payment, now));
    MarkFollows(s, Opened(s, payment, now), paid);
  }

  lemma PayActs(s: State, id: Id, now: Time)
    ensures Acts(s, Pay(id, true, now), Settling(s, id, true, now))
  {
  }

  ghost function TriggeredRow(who: Origin): Fact {
    AcceptedFact(who, 1, "x", TRIGGERED, 0, 90)
  }

  ghost function PaidRow(who: Origin, now: Time): Fact {
    PaidFact(who, 1, "x", TRIGGERED, now)
  }

  ghost function Watching(who: Origin): State {
    Inserted(Empty(who), TRIGGERED, 0, 0)
  }

  /** What one instance holds that took the payment on and settled it by itself. */
  ghost function Settler(who: Origin, now: Time): State {
    Settling(Watching(who), "x", true, now)
  }

  lemma SettlerHolds(who: Origin, now: Time)
    ensures var t := Settler(who, now);
      && t.self == who && Sound(t)
      && t.rows == map[TriggeredRow(who).Name() := TriggeredRow(who), PaidRow(who, now).Name() := PaidRow(who, now)]
      && (forall slot: Slot :: slot.origin != who ==> MarkIn(t.marks, slot) == 0)
  {
    hide Inserted, Sound, Issues, Settling;
    EmptyIsSound(who);
    InsertsNew(Empty(who), TRIGGERED, 0, 0);
    SettlesAlone(Watching(who), TriggeredRow(who).Name(), now);
  }

  /** Instance 0 once it has heard that instance 1 settled the payment too, a second after it did. */
  ghost function SettledByBoth(): State {
    Heard(0, Settler(0, 1), [NEWER], 2)
  }

  lemma BothSettled()
    ensures var h := SettledByBoth();
      && h.self == 0 && h.rows == Settler(0, 1).rows[NEWER.Name() := NEWER]
  {
    hide Absorbed, Sound, Settling, Inserted;
    SettlerHolds(0, 1);
    SoundIsClosed(Settler(0, 1));
    HearsOne(0, Settler(0, 1), NEWER, 2);
  }

  lemma NewestIsLost(h: State)
    requires h.rows == map[TriggeredRow(0).Name() := TriggeredRow(0), OLDER.Name() := OLDER, NEWER.Name() := NEWER]
    ensures Replay.AskedFor(h.rows, "t", 1)
    ensures !Replay.ReplayUnchanged(h.rows, Pruned(h, 0, 50).rows, "t", 1)
    ensures Acts(h, Sweep(0, [], 50), Pruned(h, 0, 50))
  {
    hide Pruned, Acts, Replay.ReplayUnchanged;
    assert Replay.Of(h.rows, "t") == {OLDER.Name(), NEWER.Name()};
    Replay.LosesTheNewest(h, OLDER, NEWER, "t", 0, 50);
    SweepsQuietly(h, 0, 50);
  }

  lemma SettledByBothIsLost()
    ensures var h := SettledByBoth(); var p := Pruned(h, 0, 50);
      && Replay.AskedFor(h.rows, "t", 1) && !Replay.ReplayUnchanged(h.rows, p.rows, "t", 1)
      && Acts(h, Sweep(0, [], 50), p)
  {
    hide Acts, Pruned, Heard, Settling, Replay.AskedFor, Replay.ReplayUnchanged;
    SettlerHolds(0, 1);
    BothSettled();
    NewestIsLost(SettledByBoth());
  }

  /** Instance 0 settles the payment, and a second later instance 1 settles it too and says so. */
  lemma BothSettle() returns (trace: seq<Cluster>, steps: seq<Step>)
    ensures RunOf(trace, steps) && |steps| == 4 && |trace| == 5 && Last(trace).past.recorded.Keys == {0, 1}
    ensures Last(trace).at == map[0 := Settler(0, 1), 1 := Settler(1, 2)] && Last(trace).wire == {Push([NEWER])}
  {
    hide RunOf, Acts, Absorbed, Inserted, Settling, Sound;
    RunBegins();
    SettlerHolds(1, 2);
    InsertActs(Empty(0), TRIGGERED, 0);
    PayActs(Watching(0), "x", 1);
    InsertActs(Empty(1), TRIGGERED, 0);
    PayActs(Watching(1), "x", 2);
    trace, steps := Acting([Beginning()], [], 0, Action.Insert(TRIGGERED, 0, 0), Watching(0), {});
    trace, steps := Acting(trace, steps, 0, Pay("x", true, 1), Settler(0, 1), {});
    trace, steps := Acting(trace, steps, 1, Action.Insert(TRIGGERED, 0, 0), Watching(1), {});
    trace, steps := Acting(trace, steps, 1, Pay("x", true, 2), Settler(1, 2), {Push([NEWER])});
  }

  lemma BothSettleAndOneHears() returns (trace: seq<Cluster>, steps: seq<Step>)
    ensures RunOf(trace, steps) && |steps| == 5 && |trace| == 6
    ensures Member(Last(trace), 0) && Last(trace).at[0] == SettledByBoth()
  {
    hide RunOf, Absorbed, Settling;
    trace, steps := BothSettle();
    trace, steps := Hearing(trace, steps, 0, [NEWER], 2);
  }

  /**
   A settlement can be lost to its trigger: in this run two instances settle one payment, one of them
   hears of it and sweeps, and a replay its settlements asked for is not what it was.
   */
  lemma SettlementLostInARun() returns (trace: seq<Cluster>, steps: seq<Step>)
    ensures RunOf(trace, steps) && |steps| == 6 && 0 in trace[5].at && 0 in trace[6].at
    ensures steps[5].Act? && steps[5].who == 0 && steps[5].act.Sweep?
    ensures Replay.AskedFor(trace[5].at[0].rows, "t", 1)
    ensures !Replay.ReplayUnchanged(trace[5].at[0].rows, trace[6].at[0].rows, "t", 1)
  {
    hide RunOf, Acts, Pruned, SettledByBoth, Replay.AskedFor, Replay.ReplayUnchanged;
    SettledByBothIsLost();
    trace, steps := BothSettleAndOneHears();
    trace, steps := Acting(trace, steps, 0, Sweep(0, [], 50), Pruned(SettledByBoth(), 0, 50), {});
  }
}
