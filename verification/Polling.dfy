/** How often a payment is polled: eagerly at first, then less and less the longer it has waited. */
module Polling {
  import opened Options
  import opened Turns

  const EAGER_WINDOW_SECS: int := 300
  const WATCH_HORIZON_SECS: int := 2592000

  /** Milliseconds to wait; the tenth of the age that staleness allows is taken exactly. */
  function PollDelayMs(waited: int, eagerMs: real, askedMs: Option<real>): real {
    if askedMs.Some? then askedMs.value
    else if waited < EAGER_WINDOW_SECS then eagerMs
    else waited as real / 10.0 * 1000.0
  }

  function NextDue(createdAt: int, expiresAt: int, now: int, eagerMs: real, askedMs: Option<real>): Option<int> {
    var waited := now - createdAt;
    if now >= expiresAt || waited >= WATCH_HORIZON_SECS then None
    else Some(Min(now + Ceil(PollDelayMs(waited, eagerMs, askedMs) / 1000.0), expiresAt))
  }

  /**
   Re-arming stops at expiry or at the horizon, and otherwise is never late for expiry; it is ahead
   of now exactly when the delay is positive.
   */
  lemma NextDueIsAhead(createdAt: int, expiresAt: int, now: int, eagerMs: real, askedMs: Option<real>)
    ensures var due := NextDue(createdAt, expiresAt, now, eagerMs, askedMs);
      && (due.None? <==> now >= expiresAt || now - createdAt >= WATCH_HORIZON_SECS)
      && (due.Some? ==> due.value <= expiresAt)
      && (due.Some? ==> (now < due.value <==> PollDelayMs(now - createdAt, eagerMs, askedMs) > 0.0))
  {
    CeilIsLeast(PollDelayMs(now - createdAt, eagerMs, askedMs) / 1000.0, 0);
  }

  /**
   And it comes as soon as the delay is over, to the second: the pace asked, else the eager delay while
   the payment is young, else a tenth of its age; or at expiry if that is sooner.
   */
  lemma NextDueComesAfterTheDelay(createdAt: int, expiresAt: int, now: int, eagerMs: real, askedMs: Option<real>)
    ensures var due, age := NextDue(createdAt, expiresAt, now, eagerMs, askedMs), now - createdAt;
      var secs := if askedMs.Some? then askedMs.value / 1000.0
                  else if age < EAGER_WINDOW_SECS then eagerMs / 1000.0 else age as real / 10.0;
      due.Some? ==>
        && (due.value == expiresAt || secs <= (due.value - now) as real < secs + 1.0)
        && (due.value as real < now as real + secs ==> due.value == expiresAt)
  {
    var secs := PollDelayMs(now - createdAt, eagerMs, askedMs) / 1000.0;
    CeilIsLeast(secs, Ceil(secs));
    CeilIsLeast(secs, Ceil(secs) - 1);
  }

  /** A late poll waits a tenth of the age, rounded up to whole seconds. */
  lemma LateDelay(waited: int)
    requires waited >= EAGER_WINDOW_SECS
    ensures Ceil(PollDelayMs(waited, 0.0, None) / 1000.0) == (waited + 9) / 10
  {
    var x, n := PollDelayMs(waited, 0.0, None) / 1000.0, (waited + 9) / 10;
    assert x == waited as real / 10.0;
    assert 10 * n >= waited && 10 * (n - 1) < waited;
    CeilIsLeast(x, n);
    CeilIsLeast(x, n - 1);
  }

  // ---------------------------------------------------------------- how many polls

  /** One payment polled again and again, each time no sooner than due; `polls` are the times. */
  ghost predicate Polled(createdAt: int, expiresAt: int, eagerMs: real, polls: seq<int>) {
    && (|polls| > 0 ==> createdAt <= polls[0])
    && (forall i: nat :: i + 1 < |polls| ==> Rearms(createdAt, expiresAt, eagerMs, polls, i))
  }

  ghost predicate Rearms(createdAt: int, expiresAt: int, eagerMs: real, polls: seq<int>, i: nat)
    requires i + 1 < |polls|
  {
    var due := NextDue(createdAt, expiresAt, polls[i], eagerMs, None);
    due.Some? && due.value <= polls[i + 1]
  }

  function Eager(eagerMs: real): int {
    Ceil(eagerMs / 1000.0)
  }

  /** Between two polls that both re-arm, the whole delay has passed. */
  lemma DelayPasses(createdAt: int, expiresAt: int, eagerMs: real, polls: seq<int>, i: nat)
    requires Polled(createdAt, expiresAt, eagerMs, polls) && i + 2 < |polls|
    ensures polls[i + 1] >= polls[i] + Ceil(PollDelayMs(polls[i] - createdAt, eagerMs, None) / 1000.0)
  {
    assert Rearms(createdAt, expiresAt, eagerMs, polls, i);
    assert Rearms(createdAt, expiresAt, eagerMs, polls, i + 1);
  }

  ghost function Power(base: nat, n: nat): nat {
    if n == 0 then 1 else base * Power(base, n - 1)
  }

  lemma {:induction false} EarlyPollsStep(createdAt: int, expiresAt: int, eagerMs: real, polls: seq<int>, n: nat)
    requires Polled(createdAt, expiresAt, eagerMs, polls) && n + 1 < |polls| && Eager(eagerMs) >= 1
    requires forall i :: 0 <= i < n ==> polls[i] - createdAt < EAGER_WINDOW_SECS
    ensures polls[n] - createdAt >= n * Eager(eagerMs)
  {
    if n > 0 {
      EarlyPollsStep(createdAt, expiresAt, eagerMs, polls, n - 1);
      DelayPasses(createdAt, expiresAt, eagerMs, polls, n - 1);
    }
  }

  /** Past the eager window each poll finds the payment at least a tenth older. */
  lemma {:induction false} LatePollsGrow(
    createdAt: int, expiresAt: int, eagerMs: real, polls: seq<int>, first: nat, n: nat)
    requires Polled(createdAt, expiresAt, eagerMs, polls) && first + n + 1 < |polls|
    requires polls[first] - createdAt >= EAGER_WINDOW_SECS
    ensures polls[first + n] - createdAt >= EAGER_WINDOW_SECS
    ensures (polls[first + n] - createdAt) * Power(10, n) >= EAGER_WINDOW_SECS * Power(11, n)
  {
    if n > 0 {
      LatePollsGrow(createdAt, expiresAt, eagerMs, polls, first, n - 1);
      DelayPasses(createdAt, expiresAt, eagerMs, polls, first + n - 1);
      var before, after := polls[first + n - 1] - createdAt, polls[first + n] - createdAt;
      LateDelay(before);
      assert 10 * after >= 11 * before;
      GrowsByATenth(before, after, n);
    }
  }

  lemma GrowsByATenth(before: int, after: int, n: nat)
    requires n > 0 && 10 * after >= 11 * before
    requires before * Power(10, n - 1) >= EAGER_WINDOW_SECS * Power(11, n - 1)
    ensures after * Power(10, n) >= EAGER_WINDOW_SECS * Power(11, n)
  {
    var p, q := Power(10, n - 1), Power(11, n - 1);
    calc {
      after * Power(10, n);
    ==
      (10 * after) * p;
    >= { Scale(11 * before, 10 * after, p); }
      (11 * before) * p;
    ==
      11 * (before * p);
    >=
      11 * (EAGER_WINDOW_SECS * q);
    ==
      EAGER_WINDOW_SECS * Power(11, n);
    }
  }

  lemma Scale(a: int, b: int, n: nat)
    requires a <= b
    ensures a * n <= b * n
  {
  }

  lemma Fewer(a: int, b: int, n: nat)
    requires a * n < b * n
    ensures a < b
  {
    if a >= b { Scale(b, a, n); }
  }

  /** The number of polls before the window closes. */
  lemma EarlyPolls(createdAt: int, expiresAt: int, eagerMs: real, polls: seq<int>) returns (first: nat)
    requires Polled(createdAt, expiresAt, eagerMs, polls) && Eager(eagerMs) >= 1 && |polls| > 0
    ensures first < |polls| && first <= Ceil(EAGER_WINDOW_SECS as real / Eager(eagerMs) as real)
    ensures first + 1 < |polls| ==> polls[first] - createdAt >= EAGER_WINDOW_SECS
  {
    first := 0;
    var e := Eager(eagerMs);
    var most := Ceil(EAGER_WINDOW_SECS as real / e as real);
    CeilIsLeast(EAGER_WINDOW_SECS as real / e as real, most);
    assert most * e >= EAGER_WINDOW_SECS by {
      assert most as real * e as real >= EAGER_WINDOW_SECS as real / e as real * e as real;
    }
    while first + 1 < |polls| && polls[first] - createdAt < EAGER_WINDOW_SECS
      invariant 0 <= first < |polls|
      invariant forall i :: 0 <= i < first ==> polls[i] - createdAt < EAGER_WINDOW_SECS
      invariant first <= most
    {
      EarlyPollsStep(createdAt, expiresAt, eagerMs, polls, first);
      Fewer(first, most, e);
      first := first + 1;
    }
  }

  lemma {:induction false} StaysAbove(k: nat, n: nat)
    requires EAGER_WINDOW_SECS * Power(11, k) >= WATCH_HORIZON_SECS * Power(10, k) && k <= n
    ensures EAGER_WINDOW_SECS * Power(11, n) >= WATCH_HORIZON_SECS * Power(10, n)
    decreases n
  {
    if k < n { StaysAbove(k, n - 1); }
  }

  lemma RearmedInTime(createdAt: int, expiresAt: int, eagerMs: real, polls: seq<int>, i: nat)
    requires Polled(createdAt, expiresAt, eagerMs, polls) && i + 1 < |polls|
    ensures polls[i] - createdAt < WATCH_HORIZON_SECS
  {
    assert Rearms(createdAt, expiresAt, eagerMs, polls, i);
  }

  lemma PastTheHorizon(age: int, k: nat)
    requires EAGER_WINDOW_SECS * Power(11, k) >= WATCH_HORIZON_SECS * Power(10, k)
    requires age * Power(10, k) >= EAGER_WINDOW_SECS * Power(11, k)
    ensures age >= WATCH_HORIZON_SECS
  {
    PowerIsPositive(10, k);
    if age < WATCH_HORIZON_SECS { Scale(age + 1, WATCH_HORIZON_SECS, Power(10, k)); }
  }

  lemma LatePolls(createdAt: int, expiresAt: int, eagerMs: real, polls: seq<int>, first: nat, k: nat)
    requires Polled(createdAt, expiresAt, eagerMs, polls) && first < |polls|
    requires first + 1 < |polls| ==> polls[first] - createdAt >= EAGER_WINDOW_SECS
    requires EAGER_WINDOW_SECS * Power(11, k) >= WATCH_HORIZON_SECS * Power(10, k)
    ensures |polls| <= first + k + 1
  {
    if |polls| > first + k + 1 {
      LatePollsGrow(createdAt, expiresAt, eagerMs, polls, first, k);
      RearmedInTime(createdAt, expiresAt, eagerMs, polls, first + k);
      PastTheHorizon(polls[first + k] - createdAt, k);
    }
  }

  /**
   The theorem: however late each poll comes, a payment is polled at most as often as the eager
   delay fits in the window, plus `k` where 300 * 1.1^k reaches the horizon, plus once.
   */
  lemma PollsAreFew(createdAt: int, expiresAt: int, eagerMs: real, polls: seq<int>, k: nat)
    requires Polled(createdAt, expiresAt, eagerMs, polls) && Eager(eagerMs) >= 1
    requires EAGER_WINDOW_SECS * Power(11, k) >= WATCH_HORIZON_SECS * Power(10, k)
    ensures |polls| <= Ceil(EAGER_WINDOW_SECS as real / Eager(eagerMs) as real) + k + 1
  {
    if |polls| > 0 {
      var first := EarlyPolls(createdAt, expiresAt, eagerMs, polls);
      LatePolls(createdAt, expiresAt, eagerMs, polls, first, k);
    }
  }

  lemma {:induction false} PowerIsPositive(base: nat, n: nat)
    requires base >= 1
    ensures Power(base, n) >= 1
  {
    if n > 0 { PowerIsPositive(base, n - 1); }
  }

  lemma {:induction false} PowerSum(base: nat, m: nat, n: nat)
    ensures Power(base, m + n) == Power(base, m) * Power(base, n)
  {
    if m > 0 {
      PowerSum(base, m - 1, n);
      var p, q := Power(base, m - 1), Power(base, n);
      assert base * (p * q) == (base * p) * q;
    }
  }

  lemma Elevens()
    ensures Power(11, 48) == 97017233784872162402203715694511008214034825609281
    ensures Power(11, 47) == 8819748525897469309291246881319182564912256873571
  {
    assert Power(11, 6) == 1771561;
    PowerSum(11, 6, 6);
    PowerSum(11, 12, 12);
    PowerSum(11, 24, 24);
    assert Power(11, 48) == 11 * Power(11, 47);
  }

  lemma Tens()
    ensures Power(10, 48) == 1000000000000000000000000000000000000000000000000
    ensures Power(10, 47) == 100000000000000000000000000000000000000000000000
  {
    assert Power(10, 6) == 1000000;
    PowerSum(10, 6, 6);
    PowerSum(10, 12, 12);
    PowerSum(10, 24, 24);
    assert Power(10, 48) == 10 * Power(10, 47);
  }

  /** The least such `k` is 96. */
  lemma NinetySixLatePolls(k: nat)
    ensures EAGER_WINDOW_SECS * Power(11, k) >= WATCH_HORIZON_SECS * Power(10, k) <==> k >= 96
  {
    Elevens();
    Tens();
    PowerSum(11, 48, 48);
    PowerSum(10, 48, 48);
    PowerSum(11, 48, 47);
    PowerSum(10, 48, 47);
    if k >= 96 {
      StaysAbove(96, k);
    } else if EAGER_WINDOW_SECS * Power(11, k) >= WATCH_HORIZON_SECS * Power(10, k) {
      StaysAbove(k, 95);
    }
  }
}
