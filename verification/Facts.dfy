/**
 The facts a ledger holds. A fact is immutable and is named by the table it belongs to,
 the instance that wrote it and that instance's own sequence number.
 */
module Facts {
  import opened Options

  /** An origin is 16 random bytes written in hexadecimal; such strings sort as the numbers they spell. */
  type Origin = nat
  /** Seconds since 1970, as every clock reading and deadline of the ledger is kept. */
  type Time = nat
  type Id = string
  type Url = string

  datatype Source = Accepted | Paid | Outbox | Delivered {
    function Index(): nat {
      match this
      case Accepted => 0
      case Paid => 1
      case Outbox => 2
      case Delivered => 3
    }
  }

  /** The key of the `progress` table. */
  datatype Slot = Slot(source: Source, origin: Origin)

  /** The primary key of a fact table, together with the table. */
  datatype Key = Key(slot: Slot, number: nat) {
    /** ORDER BY origin, seq, with the tables in the order the ledger lists them. */
    predicate Before(other: Key) {
      var a, b := slot, other.slot;
      || a.source.Index() < b.source.Index()
      || (a.source == b.source && (a.origin < b.origin || (a.origin == b.origin && number < other.number)))
    }
  }

  datatype Payment = Payment(
    id: Id, createdAt: Time, expiresAt: Time, verifyUrl: string,
    trigger: Option<string>, replay: nat, webhooks: seq<Url>)

  /** What a webhook is sent: the settled payment without its webhooks, and when it settled. */
  datatype Body = Body(settled: Payment, settledAt: Time)

  datatype Fact =
    | AcceptedFact(origin: Origin, number: nat, id: Id, payment: Payment, acceptedAt: Time, expiresAt: Time)
    | PaidFact(origin: Origin, number: nat, id: Id, payment: Payment, settledAt: Time)
    | OutboxFact(origin: Origin, number: nat, id: Id, url: Url, body: Body, owedAt: Time)
    | DeliveredFact(origin: Origin, number: nat, id: Id, url: Url, deliveredAt: Time)
  {
    function Table(): Source {
      match this
      case AcceptedFact(_, _, _, _, _, _) => Accepted
      case PaidFact(_, _, _, _, _) => Paid
      case OutboxFact(_, _, _, _, _, _) => Outbox
      case DeliveredFact(_, _, _, _, _) => Delivered
    }

    function Lane(): Slot {
      Slot(Table(), origin)
    }

    function Name(): Key {
      Key(Lane(), number)
    }
  }

  type Watermarks = map<Slot, nat>

  function MarkIn(marks: Watermarks, slot: Slot): nat {
    if slot in marks then marks[slot] else 0
  }

  lemma BeforeIsTransitive(a: Key, b: Key, c: Key)
    requires a.Before(b) && b.Before(c)
    ensures a.Before(c)
  {
  }

  lemma BeforeIsTotal(a: Key, b: Key)
    ensures a == b || a.Before(b) || b.Before(a)
  {
  }

  ghost predicate Ascending(facts: seq<Fact>) {
    |facts| > 1 ==> !facts[1].Name().Before(facts[0].Name()) && Ascending(facts[1..])
  }

  /** A stable sort by table, origin and sequence number. */
  function InOrder(facts: seq<Fact>): (sorted: seq<Fact>)
    ensures Ascending(sorted)
  {
    if facts == [] then [] else Placed(facts[0], InOrder(facts[1..]))
  }

  function Placed(fact: Fact, sorted: seq<Fact>): (placed: seq<Fact>)
    requires Ascending(sorted)
    ensures Ascending(placed)
    ensures placed != [] && (placed[0] == fact || (sorted != [] && placed[0] == sorted[0]))
  {
    if sorted == [] || !sorted[0].Name().Before(fact.Name()) then
      assert sorted != [] ==> ([fact] + sorted)[1..] == sorted;
      [fact] + sorted
    else
      var rest := Placed(fact, sorted[1..]);
      assert ([sorted[0]] + rest)[1..] == rest;
      [sorted[0]] + rest
  }

  lemma {:induction false} InOrderKeepsMembers(facts: seq<Fact>)
    ensures multiset(InOrder(facts)) == multiset(facts)
    ensures forall f :: f in InOrder(facts) <==> f in facts
  {
    if facts != [] {
      InOrderKeepsMembers(facts[1..]);
      PlacedAddsOne(facts[0], InOrder(facts[1..]));
      assert facts == [facts[0]] + facts[1..];
    }
    forall f ensures f in InOrder(facts) <==> f in facts {
      assert f in InOrder(facts) <==> f in multiset(InOrder(facts));
      assert f in facts <==> f in multiset(facts);
    }
  }

  lemma {:induction false} PlacedAddsOne(fact: Fact, sorted: seq<Fact>)
    requires Ascending(sorted)
    ensures multiset(Placed(fact, sorted)) == multiset{fact} + multiset(sorted)
  {
    if sorted != [] && sorted[0].Name().Before(fact.Name()) {
      PlacedAddsOne(fact, sorted[1..]);
      assert sorted == [sorted[0]] + sorted[1..];
    }
  }

  /** SQL's max() over a column, with the coalesce to 0 every use of it carries. */
  function MaxOf(numbers: set<nat>): (most: nat)
    ensures forall n :: n in numbers ==> n <= most
    ensures if numbers == {} then most == 0 else most in numbers
  {
    if numbers == {} then 0
    else
      MostExists(numbers);
      var most :| most in numbers && forall n | n in numbers :: n <= most;
      most
  }

  lemma MostExists(numbers: set<nat>)
    requires numbers != {}
    ensures exists most :: most in numbers && forall n | n in numbers :: n <= most
  {
    var some :| some in numbers;
    var others := numbers - {some};
    if others == {} {
      assert forall n | n in numbers :: n == some || n in others;
    } else {
      MostExists(others);
      var most :| most in others && forall n | n in others :: n <= most;
      if most < some {
        assert forall n | n in numbers :: n == some || n in others;
      } else {
        assert forall n | n in numbers :: n == some || n in others;
      }
    }
  }

  /** The rows a query with ORDER BY origin, seq yields. */
  function Sorted(keys: set<Key>): (sorted: seq<Key>)
    ensures forall k :: k in sorted <==> k in keys
    ensures forall i, j :: 0 <= i < j < |sorted| ==> sorted[i].Before(sorted[j])
    decreases keys
  {
    if keys == {} then []
    else
      LeastExists(keys);
      var least :| least in keys && forall k | k in keys :: k == least || least.Before(k);
      [least] + Sorted(keys - {least})
  }

  lemma LeastExists(keys: set<Key>)
    requires keys != {}
    ensures exists least :: least in keys && forall k | k in keys :: k == least || least.Before(k)
  {
    var some :| some in keys;
    var others := keys - {some};
    if others == {} {
      assert forall k | k in keys :: k == some || k in others;
    } else {
      LeastExists(others);
      var least :| least in others && forall k | k in others :: k == least || least.Before(k);
      if least.Before(some) {
        assert forall k | k in keys :: k == least || least.Before(k);
      } else {
        BeforeIsTotal(some, least);
        forall k | k in keys ensures k == some || some.Before(k) {
          if k != some && k != least { BeforeIsTransitive(some, least, k); }
        }
      }
    }
  }
}
