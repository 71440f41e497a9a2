/** What the ledger's queries for due work ask of a table: the earliest rows, a bounded number of them. */
module Queries {
  import opened Options
  import opened Facts

  /** `ORDER BY dueAt LIMIT limit`, of rows that are all due. */
  ghost predicate Earliest<T(!new)>(due: set<T>, taken: set<T>, limit: nat, dueAt: T -> Time) {
    && taken <= due
    && |taken| == Min(limit, |due|)
    && forall one, other :: one in taken && other in due - taken ==> dueAt(one) <= dueAt(other)
  }

  /** Fewer than the limit are all there are. */
  lemma ShortOfTheLimit<T(!new)>(due: set<T>, taken: set<T>, limit: nat, dueAt: T -> Time)
    requires Earliest(due, taken, limit, dueAt)
    ensures |taken| <= limit && (|taken| < limit ==> taken == due)
  {
    assert due == taken + (due - taken);
  }

  method TakeEarliest<T(==,!new)>(due: set<T>, limit: nat, dueAt: T -> Time) returns (taken: set<T>)
    ensures Earliest(due, taken, limit, dueAt)
  {
    taken := {};
    while |taken| < limit && taken != due
      invariant taken <= due && |taken| <= limit
      invariant forall one, other :: one in taken && other in due - taken ==> dueAt(one) <= dueAt(other)
      decreases |due - taken|
    {
      var first := First(due - taken, dueAt);
      assert due - (taken + {first}) == due - taken - {first};
      taken := taken + {first};
    }
    assert due == taken + (due - taken);
  }

  method Soonest(times: set<Time>) returns (soonest: Option<Time>)
    ensures soonest.None? <==> times == {}
    ensures soonest.Some? ==> soonest.value in times && forall t: Time :: t in times ==> soonest.value <= t
  {
    soonest := None;
    var rest := times;
    while rest != {}
      invariant rest <= times
      invariant soonest.None? ==> rest == times
      invariant times == {} ==> soonest.None?
      invariant soonest.Some? ==> soonest.value in times
      invariant forall t: Time :: t in times ==> t in rest || (soonest.Some? && soonest.value <= t)
      decreases |rest|
    {
      var t: Time :| t in rest;
      if soonest.None? || t < soonest.value { soonest := Some(t); }
      rest := rest - {t};
    }
  }

  method First<T(==,!new)>(due: set<T>, dueAt: T -> Time) returns (first: T)
    requires due != {}
    ensures first in due && forall other :: other in due ==> dueAt(first) <= dueAt(other)
  {
    first :| first in due;
    var rest := due - {first};
    while rest != {}
      invariant first in due && rest <= due
      invariant forall other :: other in due - rest ==> dueAt(first) <= dueAt(other)
      decreases |rest|
    {
      var next :| next in rest;
      if dueAt(next) < dueAt(first) { first := next; }
      rest := rest - {next};
    }
  }
}
