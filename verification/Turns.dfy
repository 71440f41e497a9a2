/**
 Whose turn it is. Instances that watch the same payment rank themselves by a hash of the payment
 and the instance, and poll one after another, a wait apart.
 */
module Turns {
  import opened Options
  import opened Facts

  const LEASE_SECS: nat := 30

  /** The hash of a payment and an instance; equal hashes are left out of the theorems by `Distinct`. */
  type Standing = (Id, Origin) -> nat

  function Ceil(x: real): int {
    if x.Floor as real == x then x.Floor else x.Floor + 1
  }

  lemma CeilIsLeast(x: real, n: int)
    ensures Ceil(x) <= n <==> x <= n as real
  {
  }

  function Ahead(standing: Standing, id: Id, self: Origin, peers: set<Origin>): set<Origin> {
    set peer | peer in peers && standing(id, peer) > standing(id, self)
  }

  function Rank(standing: Standing, id: Id, self: Origin, peers: set<Origin>): nat {
    |Ahead(standing, id, self, peers)|
  }

  /** `rankAmong`: how many peers stand higher. */
  method RankAmong(standing: Standing, id: Id, self: Origin, peers: set<Origin>) returns (ahead: nat)
    ensures ahead == Rank(standing, id, self, peers)
  {
    var mine := standing(id, self);
    ahead := 0;
    var rest := peers;
    while rest != {}
      invariant rest <= peers
      invariant ahead == Rank(standing, id, self, peers - rest)
      decreases |rest|
    {
      var peer :| peer in rest;
      if standing(id, peer) > mine {
        assert Ahead(standing, id, self, peers - (rest - {peer})) == Ahead(standing, id, self, peers - rest) + {peer};
        ahead := ahead + 1;
      } else {
        assert Ahead(standing, id, self, peers - (rest - {peer})) == Ahead(standing, id, self, peers - rest);
      }
      rest := rest - {peer};
    }
    assert peers - {} == peers;
  }

  /** How far apart two turns are, in whole seconds. */
  function Wait(gap: real): (wait: nat)
    ensures 1 <= wait <= LEASE_SECS
    ensures wait as real >= gap || wait == LEASE_SECS
    ensures (wait - 1) as real < gap || wait == 1
  {
    CeilIsLeast(gap, Ceil(gap));
    CeilIsLeast(gap, Ceil(gap) - 1);
    Min(Max(Ceil(gap), 1), LEASE_SECS)
  }

  function Turn(rank: nat, next: Time, gap: real): Time {
    next + rank * Wait(gap)
  }

  // ---------------------------------------------------------------- ranks

  ghost predicate Distinct(standing: Standing, id: Id, all: set<Origin>) {
    forall i, j :: i in all && j in all && i != j ==> standing(id, i) != standing(id, j)
  }

  lemma SmallerSet<T>(a: set<T>, b: set<T>)
    requires a <= b
    ensures |a| <= |b| && (|a| == |b| ==> a == b)
  {
    assert b == a + (b - a);
  }

  /** Whoever stands higher ranks lower, and no rank reaches the number of instances. */
  lemma HigherRanksLower(standing: Standing, id: Id, all: set<Origin>, i: Origin, j: Origin)
    requires i in all && j in all && standing(id, i) > standing(id, j)
    ensures Rank(standing, id, i, all - {i}) < Rank(standing, id, j, all - {j})
  {
    var a, b := Ahead(standing, id, i, all - {i}), Ahead(standing, id, j, all - {j});
    assert a + {i} <= b;
    SmallerSet(a + {i}, b);
  }

  lemma RankBelowCount(standing: Standing, id: Id, all: set<Origin>, i: Origin)
    requires i in all
    ensures Rank(standing, id, i, all - {i}) < |all|
  {
    SmallerSet(Ahead(standing, id, i, all - {i}) + {i}, all);
  }

  ghost function Ranks(standing: Standing, id: Id, all: set<Origin>, some: set<Origin>): set<nat> {
    set i | i in some :: Rank(standing, id, i, all - {i})
  }

  lemma {:induction false} RanksAreAsMany(standing: Standing, id: Id, all: set<Origin>, some: set<Origin>)
    requires some <= all && Distinct(standing, id, all)
    ensures |Ranks(standing, id, all, some)| == |some|
    decreases some
  {
    if some != {} {
      var i :| i in some;
      var others := some - {i};
      RanksAreAsMany(standing, id, all, others);
      var mine := Rank(standing, id, i, all - {i});
      if mine in Ranks(standing, id, all, others) {
        var j :| j in others && Rank(standing, id, j, all - {j}) == mine;
        if standing(id, i) > standing(id, j) {
          HigherRanksLower(standing, id, all, i, j);
        } else {
          HigherRanksLower(standing, id, all, j, i);
        }
      }
      assert Ranks(standing, id, all, some) == Ranks(standing, id, all, others) + {mine};
    }
  }

  ghost function UpTo(n: nat): (numbers: set<nat>)
    ensures forall r: nat :: r in numbers <==> r < n
    ensures |numbers| == n
  {
    if n == 0 then {} else UpTo(n - 1) + {n - 1}
  }

  /** Where everyone sees everyone, the ranks are 0 to n-1, each held by exactly one instance. */
  lemma RanksAreAPermutation(standing: Standing, id: Id, all: set<Origin>)
    requires Distinct(standing, id, all)
    ensures forall i, j :: i in all && j in all && i != j ==>
      Rank(standing, id, i, all - {i}) != Rank(standing, id, j, all - {j})
    ensures Ranks(standing, id, all, all) == UpTo(|all|)
  {
    forall i, j | i in all && j in all && i != j
      ensures Rank(standing, id, i, all - {i}) != Rank(standing, id, j, all - {j})
    {
      if standing(id, i) > standing(id, j) {
        HigherRanksLower(standing, id, all, i, j);
      } else {
        HigherRanksLower(standing, id, all, j, i);
      }
    }
    forall i | i in all ensures Rank(standing, id, i, all - {i}) < |all| {
      RankBelowCount(standing, id, all, i);
    }
    RanksAreAsMany(standing, id, all, all);
    SmallerSet(Ranks(standing, id, all, all), UpTo(|all|));
  }

  lemma HolderOf(standing: Standing, id: Id, all: set<Origin>, rank: nat) returns (i: Origin)
    requires Distinct(standing, id, all) && rank < |all|
    ensures i in all && Rank(standing, id, i, all - {i}) == rank
  {
    RanksAreAPermutation(standing, id, all);
    assert rank in Ranks(standing, id, all, all);
    i :| i in all && Rank(standing, id, i, all - {i}) == rank;
  }

  /** One instance gone: those behind it move up by one, those ahead of it stay. */
  lemma RemovalMovesUpThoseBehind(standing: Standing, id: Id, all: set<Origin>, gone: Origin, i: Origin)
    requires Distinct(standing, id, all) && gone in all && i in all && i != gone
    ensures Rank(standing, id, i, all - {gone} - {i})
      == Rank(standing, id, i, all - {i})
       - (if Rank(standing, id, gone, all - {gone}) < Rank(standing, id, i, all - {i}) then 1 else 0)
  {
    var before, after := Ahead(standing, id, i, all - {i}), Ahead(standing, id, i, all - {gone} - {i});
    if standing(id, gone) > standing(id, i) {
      HigherRanksLower(standing, id, all, gone, i);
      assert before == after + {gone};
    } else {
      HigherRanksLower(standing, id, all, i, gone);
      assert before == after;
    }
  }

  // ---------------------------------------------------------------- whatever each one sees

  /** Seeing fewer of the others never puts an instance further back. */
  lemma SeeingFewerRanksNoHigher(standing: Standing, id: Id, self: Origin, all: set<Origin>, view: set<Origin>)
    requires view <= all - {self}
    ensures Rank(standing, id, self, view) <= Rank(standing, id, self, all - {self})
  {
    SmallerSet(Ahead(standing, id, self, view), Ahead(standing, id, self, all - {self}));
  }

  lemma HighestStands(standing: Standing, id: Id, all: set<Origin>) returns (first: Origin)
    requires all != {}
    ensures first in all && forall i :: i in all ==> standing(id, i) <= standing(id, first)
    decreases all
  {
    first :| first in all;
    var rest := all - {first};
    if rest != {} {
      var next := HighestStands(standing, id, rest);
      if standing(id, first) < standing(id, next) { first := next; }
    }
  }

  /** Each instance sees some of the others, and not itself. */
  ghost predicate Views(all: set<Origin>, sees: map<Origin, set<Origin>>) {
    sees.Keys == all && forall i :: i in all ==> sees[i] <= all - {i}
  }

  /**
   Whatever each instance sees, one of them polls on time and nobody is later than they would be if
   everyone saw everyone: a wrong view costs a poll too many at most, never a poll.
   */
  lemma SomebodyPollsOnTime(
    standing: Standing, id: Id, all: set<Origin>, sees: map<Origin, set<Origin>>, next: Time, gap: real)
    requires all != {} && Views(all, sees)
    ensures exists first :: first in all && Turn(Rank(standing, id, first, sees[first]), next, gap) == next
    ensures forall i :: i in all ==>
      Turn(Rank(standing, id, i, sees[i]), next, gap) <= DueAt(standing, id, all, i, next, gap)
  {
    var first := HighestStands(standing, id, all);
    assert Ahead(standing, id, first, sees[first]) == {};
    assert Turn(Rank(standing, id, first, sees[first]), next, gap) == next;
    forall i | i in all
      ensures Turn(Rank(standing, id, i, sees[i]), next, gap) <= DueAt(standing, id, all, i, next, gap)
    {
      SeeingFewerRanksNoHigher(standing, id, i, all, sees[i]);
      Times(Rank(standing, id, i, sees[i]), Rank(standing, id, i, all - {i}), Wait(gap));
    }
  }

  // ---------------------------------------------------------------- due times

  ghost function DueAt(standing: Standing, id: Id, all: set<Origin>, i: Origin, next: Time, gap: real): Time {
    Turn(Rank(standing, id, i, all - {i}), next, gap)
  }

  lemma Times(a: nat, b: nat, n: nat)
    requires a <= b
    ensures a * n <= b * n
  {
  }

  lemma TurnsSpread(a: nat, b: nat, next: Time, gap: real)
    requires a < b
    ensures Turn(a, next, gap) + Wait(gap) <= Turn(b, next, gap)
  {
    Times(a + 1, b, Wait(gap));
  }

  ghost predicate HasFirstWait(standing: Standing, id: Id, all: set<Origin>, next: Time, gap: real, first: Origin) {
    && first in all && DueAt(standing, id, all, first, next, gap) == next
    && forall i :: i in all && i != first ==> next + Wait(gap) <= DueAt(standing, id, all, i, next, gap)
  }

  /** Due times are a wait apart. */
  lemma TurnsAreAWaitApart(standing: Standing, id: Id, all: set<Origin>, next: Time, gap: real, i: Origin, j: Origin)
    requires Distinct(standing, id, all) && i in all && j in all && i != j
    ensures || DueAt(standing, id, all, i, next, gap) + Wait(gap) <= DueAt(standing, id, all, j, next, gap)
      || DueAt(standing, id, all, j, next, gap) + Wait(gap) <= DueAt(standing, id, all, i, next, gap)
  {
    RanksAreAPermutation(standing, id, all);
    var a, b := Rank(standing, id, i, all - {i}), Rank(standing, id, j, all - {j});
    if a < b { TurnsSpread(a, b, next, gap); } else { TurnsSpread(b, a, next, gap); }
  }

  /** Exactly one instance is due within the first wait. */
  lemma OneTurnInTheFirstWait(standing: Standing, id: Id, all: set<Origin>, next: Time, gap: real)
    requires Distinct(standing, id, all) && all != {}
    ensures exists first :: HasFirstWait(standing, id, all, next, gap, first)
  {
    var first := HolderOf(standing, id, all, 0);
    assert DueAt(standing, id, all, first, next, gap) == next;
    forall i | i in all && i != first ensures next + Wait(gap) <= DueAt(standing, id, all, i, next, gap) {
      TurnsAreAWaitApart(standing, id, all, next, gap, first, i);
    }
    assert HasFirstWait(standing, id, all, next, gap, first);
  }

  /**
   `onMissed`: another's poll went unanswered at `now`, so this instance's turn among the rest comes
   forward.
   */
  ghost function AfterMiss(
    standing: Standing, id: Id, all: set<Origin>, lapsed: Origin, i: Origin, due: Time, now: Time, gap: real): Time
  {
    Min(due, Turn(Rank(standing, id, i, all - {lapsed} - {i}), now, gap))
  }

  /**
   The heir of a turn is due at once; everyone else left ranks behind it and is brought forward to a
   wait from now at most.
   */
  ghost predicate Inherits(
    standing: Standing, id: Id, all: set<Origin>, lapsed: Origin, due: map<Origin, Time>, now: Time, gap: real,
    heir: Origin)
    requires due.Keys == all
  {
    && heir in all && heir != lapsed
    && AfterMiss(standing, id, all, lapsed, heir, due[heir], now, gap) <= now
    && forall i :: i in all && i != lapsed && i != heir ==>
      && Rank(standing, id, heir, all - {heir}) < Rank(standing, id, i, all - {i})
      && AfterMiss(standing, id, all, lapsed, i, due[i], now, gap) >= Min(due[i], now + Wait(gap))
  }

  lemma BehindTheHeir(
    standing: Standing, id: Id, all: set<Origin>, lapsed: Origin, heir: Origin, i: Origin, due: Time, now: Time,
    gap: real)
    requires Distinct(standing, id, all) && heir in all - {lapsed} && i in all - {lapsed} && i != heir
    requires Rank(standing, id, heir, all - {lapsed} - {heir}) == 0
    ensures Rank(standing, id, heir, all - {heir}) < Rank(standing, id, i, all - {i})
    ensures AfterMiss(standing, id, all, lapsed, i, due, now, gap) >= Min(due, now + Wait(gap))
  {
    var rest := all - {lapsed};
    if standing(id, i) > standing(id, heir) {
      HigherRanksLower(standing, id, rest, i, heir);
    } else {
      HigherRanksLower(standing, id, all, heir, i);
      HigherRanksLower(standing, id, rest, heir, i);
      TurnsSpread(0, Rank(standing, id, i, rest - {i}), now, gap);
    }
  }

  /** A miss passes the turn to exactly one of the others. */
  lemma MissPassesTheTurnOn(
    standing: Standing, id: Id, all: set<Origin>, lapsed: Origin, due: map<Origin, Time>, now: Time, gap: real)
    requires Distinct(standing, id, all) && lapsed in all && all != {lapsed} && due.Keys == all
    ensures exists heir :: Inherits(standing, id, all, lapsed, due, now, gap, heir)
  {
    var rest := all - {lapsed};
    assert rest != {} by { assert exists i :: i in all && i != lapsed; }
    var heir := HolderOf(standing, id, rest, 0);
    forall i | i in all && i != lapsed && i != heir
      ensures Rank(standing, id, heir, all - {heir}) < Rank(standing, id, i, all - {i})
      ensures AfterMiss(standing, id, all, lapsed, i, due[i], now, gap) >= Min(due[i], now + Wait(gap))
    {
      BehindTheHeir(standing, id, all, lapsed, heir, i, due[i], now, gap);
    }
    assert Inherits(standing, id, all, lapsed, due, now, gap, heir);
  }

  /** When the first misses, it is the second whose turn it is. */
  lemma FirstMissesSecondIsDue(
    standing: Standing, id: Id, all: set<Origin>, lapsed: Origin, second: Origin, due: Time, now: Time, gap: real)
    requires Distinct(standing, id, all) && lapsed in all && second in all && second != lapsed
    requires Rank(standing, id, lapsed, all - {lapsed}) == 0 && Rank(standing, id, second, all - {second}) == 1
    ensures AfterMiss(standing, id, all, lapsed, second, due, now, gap) <= now
  {
    RemovalMovesUpThoseBehind(standing, id, all, lapsed, second);
  }
}
