/**
 An instance as its peers meet it: the ledger, the peers it sees, and what it says to them. A
 link hands each message to `Receive`, which may answer the one that sent it.
 */
module Stores {
  import opened Options
  import opened Facts
  import opened LedgerState
  import opened Ledgers
  import opened Replication
  import opened CatchUp
  import opened Turns
  import opened Polling

  datatype Message =
    | Have(marks: Watermarks)
    | News(facts: seq<Fact>, more: bool, through: Option<Watermarks>)
    | Polled(id: Id, next: Option<Time>)
    | Missed(id: Id)

  datatype Outcome = Already | Unknown | Refused | Won

  /** `reach`: the sum of all marks. */
  method ReachOf(marks: Watermarks) returns (reach: nat)
    ensures reach == Reach(marks)
  {
    reach := 0;
    var rest := marks;
    while rest != map[]
      invariant reach + Reach(rest) == Reach(marks)
      decreases rest.Keys
    {
      var slot :| slot in rest;
      ReachSplits(rest, slot);
      reach := reach + rest[slot];
      rest := rest - {slot};
    }
  }

  /** When this instance would first poll a payment another one accepted. */
  function StandbyDue(rank: nat, eagerMs: real, acceptedAt: Time, now: Time): Time
    requires eagerMs > 0.0
  {
    var waited := now - acceptedAt;
    var gap := PollDelayMs(waited, eagerMs, None) / 1000.0;
    CeilIsLeast(gap, 0);
    var next := if waited as real < gap then acceptedAt else now + Ceil(gap);
    Turn(rank, next, gap)
  }

  /**
   A copy heard of within the first interval, the eager delay or the eager window if that is shorter,
   joins the turn its acceptor gave it, so every instance counts from the same moment; a copy heard of
   later waits a whole interval from now, to the second, and its turn after that.
   */
  lemma CopiesJoinTheFirstTurn(rank: nat, eagerMs: real, acceptedAt: Time, now: Time)
    requires eagerMs > 0.0
    ensures var waited := now - acceptedAt;
      if waited < EAGER_WINDOW_SECS && waited as real < eagerMs / 1000.0 then
        StandbyDue(rank, eagerMs, acceptedAt, now) == Turn(rank, acceptedAt, eagerMs / 1000.0)
      else
        var interval := if waited < EAGER_WINDOW_SECS then eagerMs / 1000.0 else waited as real / 10.0;
        var first := StandbyDue(0, eagerMs, acceptedAt, now);
        && interval <= (first - now) as real < interval + 1.0
        && StandbyDue(rank, eagerMs, acceptedAt, now) == Turn(rank, first, interval)
  {
    var gap := PollDelayMs(now - acceptedAt, eagerMs, None) / 1000.0;
    CeilIsLeast(gap, Ceil(gap));
    CeilIsLeast(gap, Ceil(gap) - 1);
    CeilIsLeast(gap, 0);
  }

  class Store {
    const ledger: Ledger
    const standing: Standing
    const eagerMs: real
    const answersAlone: string -> bool
    var peers: set<Origin>
    var convergedAt: Option<Time>
    var said: seq<Message>

    predicate Valid()
    {
      eagerMs > 0.0
    }

    constructor (ledger: Ledger, standing: Standing, eagerMs: real, answersAlone: string -> bool)
      requires eagerMs > 0.0
      ensures Valid() && this.ledger == ledger && peers == {} && convergedAt.None? && said == []
    {
      this.ledger, this.standing, this.eagerMs, this.answersAlone := ledger, standing, eagerMs, answersAlone;
      peers, convergedAt, said := {}, None, [];
    }

    /** Where this instance stands among some of the instances watching a payment. */
    function RankOf(id: Id, verifyUrl: string, among: set<Origin>): nat {
      if answersAlone(verifyUrl) then 0 else Rank(standing, id, ledger.origin, among)
    }

    method TurnAmong(id: Id, verifyUrl: string, next: Time, gap: real, among: set<Origin>) returns (dueAt: Time)
      ensures dueAt == Turn(RankOf(id, verifyUrl, among), next, gap)
    {
      var ahead := 0;
      if !answersAlone(verifyUrl) { ahead := RankAmong(standing, id, ledger.origin, among); }
      dueAt := next + ahead * Wait(gap);
    }

    /** When this instance first polls a payment it takes on. */
    function DueOnInsert(id: Id, verifyUrl: string, now: Time): Time
      reads this
    {
      Turn(RankOf(id, verifyUrl, peers), now, eagerMs / 1000.0)
    }

    function DueAfterPoll(id: Id, verifyUrl: string, next: Option<Time>, now: Time): Option<Time>
      reads this
    {
      if next.None? then None
      else Some(Turn(RankOf(id, verifyUrl, peers), next.value, (next.value - now) as real))
    }

    function DueAfterMiss(
      id: Id, verifyUrl: string, missing: Origin, now: Time, was: Option<Time>): Option<Time>
      reads this
    {
      if was.None? then None
      else Some(Min(was.value, Turn(RankOf(id, verifyUrl, peers - {missing}), now, eagerMs / 1000.0)))
    }

    function StandbyAt(now: Time): Fact -> Time
      requires Valid()
      reads this
    {
      var among := peers;
      (fact: Fact) =>
        if fact.AcceptedFact? && eagerMs > 0.0
        then StandbyDue(RankOf(fact.id, fact.payment.verifyUrl, among), eagerMs, fact.acceptedAt, now) else 0
    }

    // ---------------------------------------------------------------- what peers say

    method Answer(theirs: Watermarks) returns (reply: Message)
      ensures reply.News? && reply.through.Some?
      ensures IsReply(ledger.Now(), theirs, Reply(reply.facts, reply.more, reply.through.value))
    {
      var r := ledger.Since(theirs);
      reply := News(r.facts, r.more, Some(r.through));
    }

    /**
     Asks again only while answers have more to come and each teaches it something. A push counts
     as an answer with nothing more to come.
     */
    method Hear(facts: seq<Fact>, more: bool, through: Option<Watermarks>, now: Time) returns (reply: Option<Message>)
      requires Valid()
      modifies this`convergedAt, ledger
      ensures ledger.Now() == Absorbed(ledger.rules, old(ledger.Now()), facts, through, old(StandbyAt(now)), now)
      ensures convergedAt == if more then old(convergedAt) else Some(now)
      ensures reply ==
        if more && Reach(ledger.marks) > Reach(old(ledger.marks)) then Some(Have(ledger.marks)) else None
    {
      var asked := ReachOf(ledger.marks);
      var settled := ledger.Absorb(facts, through, StandbyAt(now), now);
      reply := None;
      if !more {
        convergedAt := Some(now);
      } else {
        var reached := ReachOf(ledger.marks);
        if reached > asked { reply := Some(Have(ledger.marks)); }
      }
    }

    /** Another instance polled: whoever ranks behind it waits its own turn after the next poll. */
    method Postpone(id: Id, verifyUrl: string, next: Option<Time>, now: Time)
      modifies ledger
      ensures Rescheduled(old(ledger.Now()), ledger.Now())
      ensures id in ledger.schedule ==> ledger.schedule[id].dueAt == DueAfterPoll(id, verifyUrl, next, now)
      ensures forall other :: other in ledger.schedule && other != id ==>
        ledger.schedule[other].dueAt == old(ledger.schedule)[other].dueAt
    {
      if next.None? {
        ledger.Polled(id, None);
      } else {
        var dueAt := TurnAmong(id, verifyUrl, next.value, (next.value - now) as real, peers);
        ledger.Polled(id, Some(dueAt));
      }
    }

    /** Another instance's poll went unanswered: this one's turn among the others comes forward. */
    method BringForward(id: Id, verifyUrl: string, missing: Origin, now: Time)
      modifies ledger
      ensures Rescheduled(old(ledger.Now()), ledger.Now())
      ensures forall other :: other in ledger.schedule ==>
        (ledger.schedule[other].dueAt ==
          if other == id then DueAfterMiss(id, verifyUrl, missing, now, old(ledger.schedule)[id].dueAt)
          else old(ledger.schedule)[other].dueAt)
    {
      var dueAt := TurnAmong(id, verifyUrl, now, eagerMs / 1000.0, peers - {missing});
      ledger.BroughtForward(id, dueAt);
    }

    method Receive(message: Message, from: Origin, now: Time) returns (reply: Option<Message>)
      requires Valid()
      modifies this`convergedAt, ledger
      ensures message.Have? ==>
        && ledger.Now() == old(ledger.Now()) && convergedAt == old(convergedAt)
        && reply.Some? && reply.value.News? && reply.value.through.Some?
        && IsReply(ledger.Now(), message.marks, Reply(reply.value.facts, reply.value.more, reply.value.through.value))
      ensures message.News? ==>
        && ledger.Now()
             == Absorbed(ledger.rules, old(ledger.Now()), message.facts, message.through, old(StandbyAt(now)), now)
        && convergedAt == (if message.more then old(convergedAt) else Some(now))
        && reply
             == (if message.more && Reach(ledger.marks) > Reach(old(ledger.marks))
                 then Some(Have(ledger.marks)) else None)
      ensures message.Polled? || message.Missed? ==>
        Rescheduled(old(ledger.Now()), ledger.Now()) && convergedAt == old(convergedAt) && reply.None?
      ensures message.Polled? ==>
        var held := Read(old(ledger.Now()), message.id);
        forall id :: id in ledger.schedule ==>
          (ledger.schedule[id].dueAt ==
            if id == message.id && held.Some?
            then DueAfterPoll(id, held.value.verifyUrl, message.next, now) else old(ledger.schedule)[id].dueAt)
      ensures message.Missed? ==>
        var held := Read(old(ledger.Now()), message.id);
        forall id :: id in ledger.schedule ==>
          (ledger.schedule[id].dueAt ==
            if id == message.id && held.Some?
            then DueAfterMiss(id, held.value.verifyUrl, from, now, old(ledger.schedule)[id].dueAt)
            else old(ledger.schedule)[id].dueAt)
    {
      hide Absorbed, IsReply, Read;
      reply := None;
      match message
      case Have(theirs) =>
        var answer := Answer(theirs);
        reply := Some(answer);
      case News(facts, more, through) =>
        reply := Hear(facts, more, through, now);
      case Polled(id, next) =>
        var held := Read(ledger.Now(), id);
        if held.Some? { Postpone(id, held.value.verifyUrl, next, now); }
      case Missed(id) =>
        var held := Read(ledger.Now(), id);
        if held.Some? { BringForward(id, held.value.verifyUrl, from, now); }
    }

    // ---------------------------------------------------------------- what this instance does and says

    /**
     A payment already settled is not taken on again; any other is, and whatever was written is
     announced.
     */
    method Insert(payment: Payment, now: Time)
      modifies this`said, ledger
      ensures ledger.Now()
        == Inserted(old(ledger.Now()), payment, DueOnInsert(payment.id, payment.verifyUrl, now), now)
      ensures Sound(old(ledger.Now())) ==> Announces(old(ledger.Now()), ledger.Now(), old(said), said)
    {
      hide Taken, Sound, Tells;
      if ledger.Now().Settled(payment.id) {
        SaysNothing(ledger.Now(), said);
        return;
      }
      var dueAt := TurnAmong(payment.id, payment.verifyUrl, now, eagerMs / 1000.0, peers);
      var taken, told := ledger.Accept(payment, dueAt, now);
      if told != [] { said := said + [News(told, false, None)]; }
      if Sound(old(ledger.Now())) { Says(old(ledger.Now()), ledger.Now(), old(said), told); }
    }

    /** The first settlement wins and is announced; a later one only clears the worklist. */
    method Pay(id: Id, opens: bool, now: Time) returns (outcome: Outcome)
      modifies this`said, ledger
      ensures ledger.Now() == Settling(old(ledger.Now()), id, opens, now)
      ensures outcome ==
        if old(ledger.Now()).Settled(id) then Already
        else if Read(old(ledger.Now()), id).None? then Unknown
        else if opens then Won else Refused
      ensures outcome.Unknown? || outcome.Refused? ==> ledger.Now() == old(ledger.Now()) && said == old(said)
      ensures outcome.Already? ==>
        ledger.Now() == old(ledger.Now()).(schedule := old(ledger.schedule) - {id}) && said == old(said)
      ensures Sound(old(ledger.Now())) ==> Announces(old(ledger.Now()), ledger.Now(), old(said), said)
    {
      hide Opened, Sound, Tells, Read;
      ghost var s := ledger.Now();
      if ledger.Now().Settled(id) {
        ledger.Forget(id);
        SaysNothing(s, said);
        return Already;
      }
      SaysNothing(s, said);
      var watched := Read(ledger.Now(), id);
      if watched.None? { return Unknown; }
      var told := ledger.Settle(watched.value, opens, now);
      if told.None? { return Refused; }
      said := said + [News(told.value, false, None)];
      if Sound(s) { Says(s, ledger.Now(), old(said), told.value); }
      return Won;
    }

    /** A poll that got an answer: this instance's next turn, and a word to the others about the next poll. */
    method Polled(payment: Payment, next: Option<Time>, now: Time)
      modifies this`said, ledger
      ensures Rescheduled(old(ledger.Now()), ledger.Now())
      ensures payment.id in ledger.schedule ==>
        ledger.schedule[payment.id].dueAt == old(DueAfterPoll(payment.id, payment.verifyUrl, next, now))
      ensures forall other :: other in ledger.schedule && other != payment.id ==>
        ledger.schedule[other].dueAt == old(ledger.schedule)[other].dueAt
      ensures said == old(said) + [Message.Polled(payment.id, next)]
    {
      Postpone(payment.id, payment.verifyUrl, next, now);
      said := said + [Message.Polled(payment.id, next)];
    }

    /** A poll that got none: the same here, and a word to the others that their turn has come. */
    method Missed(payment: Payment, next: Option<Time>, now: Time)
      modifies this`said, ledger
      ensures Rescheduled(old(ledger.Now()), ledger.Now())
      ensures payment.id in ledger.schedule ==>
        ledger.schedule[payment.id].dueAt == old(DueAfterPoll(payment.id, payment.verifyUrl, next, now))
      ensures forall other :: other in ledger.schedule && other != payment.id ==>
        ledger.schedule[other].dueAt == old(ledger.schedule)[other].dueAt
      ensures said == old(said) + [Message.Missed(payment.id)]
    {
      Postpone(payment.id, payment.verifyUrl, next, now);
      said := said + [Message.Missed(payment.id)];
    }

    method Deliver(id: Id, url: Url, now: Time)
      modifies this`said, ledger
      ensures ledger.Now() == Landed(old(ledger.Now()), id, url, now)
      ensures Sound(old(ledger.Now())) ==> Announces(old(ledger.Now()), ledger.Now(), old(said), said)
    {
      hide Landed, Sound, Tells;
      var fact := ledger.Deliver(id, url, now);
      said := said + [News([fact], false, None)];
      if Sound(old(ledger.Now())) { Says(old(ledger.Now()), ledger.Now(), old(said), [fact]); }
    }
  }

  /** The rows written between two states are exactly the facts of the one message said, if any were. */
  ghost predicate Announces(s: State, t: State, before: seq<Message>, after: seq<Message>) {
    || (after == before && Tells(s, t, []))
    || (exists told :: after == before + [News(told, false, None)] && Tells(s, t, told))
  }

  lemma Says(s: State, t: State, before: seq<Message>, told: seq<Fact>)
    requires Tells(s, t, told)
    ensures Announces(s, t, before, before + [News(told, false, None)])
    ensures told == [] ==> Announces(s, t, before, before)
  {
  }

  lemma SaysNothing(s: State, said: seq<Message>)
    ensures forall t: State :: t.rows == s.rows ==> Announces(s, t, said, said)
  {
  }

  /**
   A link between an instance and one that has seen no more of it than it wrote itself: however
   far behind, the exchange of `have` and answers ends, and ends with the asker caught up.
   */
  method Link(asker: Store, answerer: Store, now: Time)
    requires asker.Valid() && answerer.Valid()
    requires asker != answerer && asker.ledger != answerer.ledger
    requires Filed(answerer.ledger.Now()) && NotAhead(answerer.ledger.Now(), asker.ledger.origin, asker.ledger.marks)
    modifies asker`convergedAt, answerer`convergedAt, asker.ledger, answerer.ledger
    ensures answerer.ledger.Now() == old(answerer.ledger.Now())
    ensures Dominates(asker.ledger.marks, answerer.ledger.marks)
    ensures asker.convergedAt == Some(now) && answerer.convergedAt == old(answerer.convergedAt)
  {
    hide IsReply, Absorbed, NotAhead, Dominates, Filed, Gap, Round;
    ghost var s := answerer.ledger.Now();
    var asking := Some(Have(asker.ledger.marks));
    while asking.Some?
      invariant answerer.ledger.Now() == s && answerer.convergedAt == old(answerer.convergedAt)
      invariant asking.Some? ==> asking.value == Have(asker.ledger.marks)
      invariant NotAhead(s, asker.ledger.origin, asker.ledger.marks) || asking.None?
      invariant asking.None? ==> Dominates(asker.ledger.marks, s.marks) && asker.convergedAt == Some(now)
      decreases asking.Some?, |Gap(s, asker.ledger.marks)|
    {
      ghost var r := asker.ledger.Now();
      var answer := answerer.Receive(asking.value, asker.ledger.origin, now);
      asking := asker.Receive(answer.value, answerer.ledger.origin, now);
      ghost var reply := Reply(answer.value.facts, answer.value.more, answer.value.through.value);
      RoundIs(asker.ledger.rules, s, r, asker.ledger.Now(), reply);
      if reply.more {
        RoundWithMoreAdvances(asker.ledger.rules, s, r, asker.ledger.Now(), reply);
      } else {
        LastRoundDominates(asker.ledger.rules, s, r, asker.ledger.Now(), reply);
      }
    }
  }

  lemma RoundIs(rules: Rules, s: State, r: State, t: State, reply: Reply)
    requires IsReply(s, r.marks, reply)
    requires exists standby, now :: t == Absorbed(rules, r, reply.facts, Some(reply.through), standby, now)
    ensures Round(rules, s, r, t, reply)
  {
    hide IsReply, Absorbed;
  }
}
