/**
 How often one host is asked: every request takes the next slot, a slot apart from the last, or is
 refused.
 */
module Budgets {
  import opened Options
  import opened Turns
  import opened Polling

  const LONGEST_WAIT_MS: real := 5000.0

  type Host = string

  /** A request to spend, at a time in milliseconds, at so many a second. */
  datatype Ask = Ask(now: real, rate: real)

  datatype Slot = Slot(at: real, ask: Ask)

  function SlotFor(nextAt: real, now: real): real {
    if nextAt > now then nextAt else now
  }

  predicate Grants(nextAt: real, ask: Ask) {
    SlotFor(nextAt, ask.now) - ask.now <= LONGEST_WAIT_MS
  }

  /** When the slot after this request's begins. */
  function After(nextAt: real, ask: Ask): real
    requires ask.rate > 0.0
  {
    if Grants(nextAt, ask) then SlotFor(nextAt, ask.now) + 1000.0 / ask.rate else nextAt
  }

  class Budget {
    const perSecond: real
    var nextAt: map<Host, real>
    var pace: map<Host, real>
    var ceiling: map<Host, real>

    predicate Valid()
      reads this
    {
      perSecond > 0.0 && forall host :: host in ceiling ==> ceiling[host] > 0.0
    }

    constructor (perSecond: real)
      requires perSecond > 0.0
      ensures Valid() && this.perSecond == perSecond && nextAt == map[] && pace == map[] && ceiling == map[]
    {
      this.perSecond := perSecond;
      nextAt, pace, ceiling := map[], map[], map[];
    }

    function NextAt(host: Host): real
      reads this
    {
      if host in nextAt then nextAt[host] else 0.0
    }

    /**
     What the host itself asked for, else what the operator did, shared among the instances of the
     cluster.
     */
    function Rate(host: Host, sharedBy: nat): (rate: real)
      requires Valid() && sharedBy >= 1
      reads this
      ensures rate > 0.0
      ensures rate * sharedBy as real == if host in ceiling then ceiling[host] else perSecond
    {
      (if host in ceiling then ceiling[host] else perSecond) / sharedBy as real
    }

    /** The pace a host asked for, in milliseconds. */
    function PaceAskedMs(host: Host): Option<real>
      reads this
    {
      if host in pace then Some(pace[host] * 1000.0) else None
    }

    /**
     What an answer asked of those who ask. A pace it names is what every next poll of the host waits,
     however old the payment; a ceiling it names is the rate of its slots from now on, shared among the
     instances. What it leaves out, other hosts, and the slot already promised stay as they were.
     */
    method Heed(host: Host, askedPace: Option<real>, askedCeiling: Option<real>)
      requires Valid() && (askedCeiling.Some? ==> askedCeiling.value > 0.0)
      modifies `pace, `ceiling
      ensures Valid()
      ensures askedPace.Some? ==> WaitsThePace(host, askedPace.value)
      ensures forall other :: askedPace.None? || other != host ==> PaceAskedMs(other) == old(PaceAskedMs(other))
      ensures forall n: nat :: n >= 1 && askedCeiling.Some? ==> Rate(host, n) * n as real == askedCeiling.value
      ensures forall other, n: nat :: n >= 1 && (askedCeiling.None? || other != host) ==>
        Rate(other, n) == old(Rate(other, n))
    {
      if askedPace.Some? { pace := pace[host := askedPace.value]; }
      if askedCeiling.Some? { ceiling := ceiling[host := askedCeiling.value]; }
      if askedPace.Some? { PaceIsWaited(host, askedPace.value); }
    }

    /** The next poll of any payment of a host comes so many seconds from now, or at its expiry if that is sooner. */
    ghost predicate WaitsThePace(host: Host, seconds: real)
      reads this
    {
      forall createdAt, expiresAt, now, eagerMs ::
        NextPoll(host, createdAt, expiresAt, now, eagerMs)
          == if now >= expiresAt || now - createdAt >= WATCH_HORIZON_SECS then None
             else Some(Min(now + Ceil(seconds), expiresAt))
    }

    lemma PaceIsWaited(host: Host, seconds: real)
      requires host in pace && pace[host] == seconds
      ensures WaitsThePace(host, seconds)
    {
      assert seconds * 1000.0 / 1000.0 == seconds;
    }

    /** When a payment of a host is next due, as the poll that just answered finds it. */
    function NextPoll(host: Host, createdAt: int, expiresAt: int, now: int, eagerMs: real): Option<int>
      reads this
    {
      NextDue(createdAt, expiresAt, now, eagerMs, PaceAskedMs(host))
    }

    /** Take the next slot of a host, if it is near enough; `wait` is how long until it. */
    method Spend(host: Host, now: real, sharedBy: nat) returns (granted: bool, wait: real)
      requires Valid() && sharedBy >= 1
      modifies `nextAt
      ensures Valid()
      ensures var ask := Ask(now, old(Rate(host, sharedBy)));
        && (granted <==> Grants(old(NextAt(host)), ask))
        && (granted ==> 0.0 <= wait <= LONGEST_WAIT_MS && now + wait == SlotFor(old(NextAt(host)), now))
        && NextAt(host) == After(old(NextAt(host)), ask)
      ensures forall other :: other != host ==> NextAt(other) == old(NextAt(other))
      ensures !granted ==> nextAt == old(nextAt)
    {
      var slot := SlotFor(NextAt(host), now);
      if slot - now > LONGEST_WAIT_MS { return false, 0.0; }
      var rate := Rate(host, sharedBy);
      nextAt := nextAt[host := slot + 1000.0 / rate];
      return true, slot - now;
    }
  }

  // ---------------------------------------------------------------- runs

  ghost predicate Positive(asks: seq<Ask>) {
    forall ask :: ask in asks ==> ask.rate > 0.0
  }

  /** The slots a host grants to a run of requests, on whatever clock they come. */
  ghost function Slots(nextAt: real, asks: seq<Ask>): seq<Slot>
    requires Positive(asks)
    decreases |asks|
  {
    if asks == [] then []
    else
      (if Grants(nextAt, asks[0]) then [Slot(SlotFor(nextAt, asks[0].now), asks[0])] else [])
      + Slots(After(nextAt, asks[0]), asks[1..])
  }

  lemma {:induction false} SlotsStart(nextAt: real, asks: seq<Ask>)
    requires Positive(asks)
    ensures forall slot :: slot in Slots(nextAt, asks) ==>
      && nextAt <= slot.at && slot.ask in asks
      && 0.0 <= slot.at - slot.ask.now <= LONGEST_WAIT_MS
    decreases |asks|
  {
    if asks != [] {
      SlotsStart(After(nextAt, asks[0]), asks[1..]);
      assert nextAt <= After(nextAt, asks[0]);
    }
  }

  /**
   Slots are at least a slot apart, the slot being as long as the rate read at the earlier one says,
   and no wait is longer than the longest.
   */
  lemma {:induction false} SlotsAreSpaced(nextAt: real, asks: seq<Ask>, i: nat, j: nat)
    requires Positive(asks) && i < j < |Slots(nextAt, asks)|
    ensures var slots := Slots(nextAt, asks);
      && slots[i].ask.rate > 0.0
      && slots[j].at >= slots[i].at + 1000.0 / slots[i].ask.rate
      && 0.0 <= slots[j].at - slots[j].ask.now <= LONGEST_WAIT_MS
    decreases |asks|
  {
    var slots := Slots(nextAt, asks);
    SlotsStart(nextAt, asks);
    assert slots[i] in slots && slots[j] in slots;
    var rest := Slots(After(nextAt, asks[0]), asks[1..]);
    if !Grants(nextAt, asks[0]) {
      SlotsAreSpaced(nextAt, asks[1..], i, j);
    } else if i > 0 {
      SlotsAreSpaced(After(nextAt, asks[0]), asks[1..], i - 1, j - 1);
    } else {
      SlotsStart(After(nextAt, asks[0]), asks[1..]);
      assert slots[j] == rest[j - 1] && rest[j - 1] in rest;
    }
  }

  /** When the next slot of a host begins: a slot after the last one granted. */
  ghost function Opens(nextAt: real, slots: seq<Slot>): real
    requires forall slot :: slot in slots ==> slot.ask.rate > 0.0
  {
    if slots == [] then nextAt
    else
      var last := slots[|slots| - 1];
      assert last in slots;
      last.at + 1000.0 / last.ask.rate
  }

  /**
   No slot is later than it need be: a request takes the moment it comes, or the next slot if that has
   not begun, and is refused exactly when that is longer to wait than the longest.
   */
  lemma {:induction false} SlotsAreTight(nextAt: real, asks: seq<Ask>, ask: Ask)
    requires Positive(asks) && ask.rate > 0.0
    ensures Positive(asks + [ask])
    ensures forall slot :: slot in Slots(nextAt, asks) ==> slot.ask.rate > 0.0
    ensures var before, all := Slots(nextAt, asks), Slots(nextAt, asks + [ask]);
      var opens := Opens(nextAt, before);
      all == if opens > ask.now + LONGEST_WAIT_MS then before
             else before + [Slot(if opens > ask.now then opens else ask.now, ask)]
    decreases |asks|
  {
    hide Slots, After, Granting;
    SlotsStart(nextAt, asks);
    if asks == [] {
      assert asks + [ask] == [ask];
      NoSlots(nextAt);
      NoSlots(After(nextAt, ask));
      OneSlot(nextAt, ask);
    } else {
      assert (asks + [ask])[0] == asks[0] && (asks + [ask])[1..] == asks[1..] + [ask];
      SlotsAreTight(After(nextAt, asks[0]), asks[1..], ask);
      SlotsStart(After(nextAt, asks[0]), asks[1..]);
      FirstSlot(nextAt, asks);
      FirstSlot(nextAt, asks + [ask]);
      OpensLater(nextAt, asks);
    }
  }

  lemma NoSlots(nextAt: real)
    ensures Slots(nextAt, []) == []
  {
  }

  lemma OneSlot(nextAt: real, ask: Ask)
    requires ask.rate > 0.0 && Positive([ask])
    ensures Slots(nextAt, [ask])
      == if nextAt > ask.now + LONGEST_WAIT_MS then []
         else [Slot(if nextAt > ask.now then nextAt else ask.now, ask)]
  {
    assert [ask][1..] == [];
  }

  lemma FirstSlot(nextAt: real, asks: seq<Ask>)
    requires asks != [] && Positive(asks)
    ensures Slots(nextAt, asks) == Granting(nextAt, asks[0]) + Slots(After(nextAt, asks[0]), asks[1..])
  {
  }

  ghost function Granting(nextAt: real, ask: Ask): seq<Slot> {
    if Grants(nextAt, ask) then [Slot(SlotFor(nextAt, ask.now), ask)] else []
  }

  lemma OpensLater(nextAt: real, asks: seq<Ask>)
    requires Positive(asks) && asks != []
    requires forall slot :: slot in Slots(nextAt, asks) ==> slot.ask.rate > 0.0
    requires forall slot :: slot in Slots(After(nextAt, asks[0]), asks[1..]) ==> slot.ask.rate > 0.0
    ensures Opens(nextAt, Slots(nextAt, asks))
      == Opens(After(nextAt, asks[0]), Slots(After(nextAt, asks[0]), asks[1..]))
  {
  }

  ghost predicate AtRate(asks: seq<Ask>, rate: real) {
    rate > 0.0 && forall ask :: ask in asks ==> ask.rate == rate
  }

  /** Which of the slots begin inside a window. */
  ghost function Within(slots: seq<Slot>, from: real, window: real): set<nat> {
    set i: nat | i < |slots| && from <= slots[i].at <= from + window
  }

  lemma OneMore(n: real, gap: real)
    ensures (n + 1.0) * gap == n * gap + gap
  {
  }

  lemma {:induction false} ApartAtRate(nextAt: real, asks: seq<Ask>, rate: real, gap: real, i: nat, j: nat)
    requires AtRate(asks, rate) && Positive(asks) && i <= j < |Slots(nextAt, asks)| && gap == 1000.0 / rate
    ensures Slots(nextAt, asks)[j].at >= Slots(nextAt, asks)[i].at + (j - i) as real * gap
    decreases j - i
  {
    hide Slots;
    var slots := Slots(nextAt, asks);
    if i < j {
      ApartAtRate(nextAt, asks, rate, gap, i, j - 1);
      StepAtRate(nextAt, asks, rate, j - 1);
      OneMore((j - 1 - i) as real, gap);
      assert (j - i) as real == (j - 1 - i) as real + 1.0;
    }
  }

  lemma StepAtRate(nextAt: real, asks: seq<Ask>, rate: real, i: nat)
    requires AtRate(asks, rate) && Positive(asks) && i + 1 < |Slots(nextAt, asks)|
    ensures Slots(nextAt, asks)[i + 1].at >= Slots(nextAt, asks)[i].at + 1000.0 / rate
  {
    hide Slots;
    SlotsAreSpaced(nextAt, asks, i, i + 1);
    SlotsStart(nextAt, asks);
    assert Slots(nextAt, asks)[i] in Slots(nextAt, asks);
  }

  lemma SpanBoundsSize(numbers: set<nat>, low: nat, high: nat)
    requires low <= high && forall n :: n in numbers ==> low <= n <= high
    ensures |numbers| <= high - low + 1
  {
    var span := UpTo(high + 1) - UpTo(low);
    assert UpTo(high + 1) == span + UpTo(low);
    SmallerSet(numbers, span);
  }

  lemma Ends(numbers: set<nat>) returns (low: nat, high: nat)
    requires numbers != {}
    ensures low in numbers && high in numbers && forall n :: n in numbers ==> low <= n <= high
  {
    low :| low in numbers;
    high := low;
    var rest := numbers;
    while rest != {}
      invariant low in numbers && high in numbers && low <= high
      invariant forall n :: n in numbers && n !in rest ==> low <= n <= high
      decreases rest
    {
      var n :| n in rest;
      if n < low { low := n; }
      if n > high { high := n; }
      rest := rest - {n};
    }
  }

  lemma SpanIsShort(nextAt: real, asks: seq<Ask>, rate: real, window: real, low: nat, high: nat)
    requires Positive(asks) && AtRate(asks, rate) && low <= high < |Slots(nextAt, asks)|
    requires Slots(nextAt, asks)[high].at - Slots(nextAt, asks)[low].at <= window
    ensures (high - low) as real <= window * rate / 1000.0
  {
    hide Slots;
    var gap := 1000.0 / rate;
    ApartAtRate(nextAt, asks, rate, gap, low, high);
    FitsTheWindow((high - low) as real, rate, gap, window);
  }

  /** At a constant rate no window holds more slots than the rate allows it, and one. */
  lemma WindowHoldsFew(nextAt: real, asks: seq<Ask>, rate: real, from: real, window: real)
    requires Positive(asks) && AtRate(asks, rate) && window >= 0.0
    ensures |Within(Slots(nextAt, asks), from, window)| as real <= window * rate / 1000.0 + 1.0
  {
    hide Slots;
    var inside := Within(Slots(nextAt, asks), from, window);
    var allowed := window * rate / 1000.0;
    assert allowed >= 0.0;
    if inside != {} {
      var low, high := Ends(inside);
      SpanBoundsSize(inside, low, high);
      SpanIsShort(nextAt, asks, rate, window, low, high);
    }
  }

  lemma FitsTheWindow(slots: real, rate: real, gap: real, window: real)
    requires rate > 0.0 && gap == 1000.0 / rate && slots * gap <= window
    ensures slots <= window * rate / 1000.0
  {
    assert gap * rate == 1000.0;
    calc {
      slots * 1000.0;
    ==
      slots * (gap * rate);
    ==
      (slots * gap) * rate;
    <=
      window * rate;
    }
  }

  ghost function InAll(instances: seq<seq<Slot>>, from: real, window: real): nat {
    if instances == [] then 0 else |Within(instances[0], from, window)| + InAll(instances[1..], from, window)
  }

  /** One instance's requests and where its slots began. */
  datatype Instance = Instance(nextAt: real, asks: seq<Ask>)

  ghost predicate Sharing(instances: seq<Instance>, rate: real) {
    forall i :: 0 <= i < |instances| ==> Positive(instances[i].asks) && AtRate(instances[i].asks, rate)
  }

  ghost function Granted(instances: seq<Instance>, rate: real): seq<seq<Slot>>
    requires Sharing(instances, rate)
  {
    seq(|instances|, i requires 0 <= i < |instances| => Slots(instances[i].nextAt, instances[i].asks))
  }

  lemma {:induction false} EachHoldsFew(
    instances: seq<Instance>, rate: real, from: real, window: real, each: real)
    requires rate > 0.0 && Sharing(instances, rate) && window >= 0.0 && each == window * rate / 1000.0 + 1.0
    ensures InAll(Granted(instances, rate), from, window) as real <= |instances| as real * each
    decreases |instances|
  {
    hide Slots, Within;
    if instances != [] {
      var rest := instances[1..];
      WindowHoldsFew(instances[0].nextAt, instances[0].asks, rate, from, window);
      EachHoldsFew(rest, rate, from, window, each);
      assert Granted(instances, rate)[1..] == Granted(rest, rate);
      OneMore(|rest| as real, each);
      assert |instances| as real == |rest| as real + 1.0;
    }
  }

  /** So n instances that each take an n-th of a host's rate keep that rate together, and one slot each. */
  lemma ClusterKeepsTheRate(instances: seq<Instance>, rate: real, from: real, window: real)
    requires |instances| > 0 && rate > 0.0 && Sharing(instances, rate / |instances| as real) && window >= 0.0
    ensures InAll(Granted(instances, rate / |instances| as real), from, window) as real
      <= window * rate / 1000.0 + |instances| as real
  {
    hide Granted, InAll, Sharing;
    var n := |instances| as real;
    var share := rate / n;
    var each := window * share / 1000.0 + 1.0;
    EachHoldsFew(instances, share, from, window, each);
    Shares(n, rate, share, window);
  }

  lemma Shares(n: real, rate: real, share: real, window: real)
    requires n > 0.0 && share == rate / n
    ensures n * (window * share / 1000.0 + 1.0) == window * rate / 1000.0 + n
  {
    assert n * share == rate;
    calc {
      n * (window * share / 1000.0 + 1.0);
    ==
      (n * (window * share)) / 1000.0 + n;
    == { assert n * (window * share) == window * (n * share); }
      window * rate / 1000.0 + n;
    }
  }

  // ---------------------------------------------------------------- what a host asks for

  /** What befalls one host's budget: its answers name a ceiling, and requests come, shared among so many instances. */
  datatype Event = Heeds(ceiling: real) | Asks(now: real, sharedBy: nat)

  ghost predicate Sensible(perSecond: real, events: seq<Event>) {
    perSecond > 0.0 && forall e :: e in events ==> if e.Heeds? then e.ceiling > 0.0 else e.sharedBy >= 1
  }

  /** The requests of a run, each at its share of the rate then in force. */
  ghost function Requests(rate: real, events: seq<Event>): seq<Ask>
    requires Sensible(rate, events)
    decreases |events|
  {
    if events == [] then []
    else
      match events[0]
      case Heeds(ceiling) => Requests(ceiling, events[1..])
      case Asks(now, sharedBy) => [Ask(now, rate / sharedBy as real)] + Requests(rate, events[1..])
  }

  ghost predicate OnlyAsks(events: seq<Event>, sharedBy: nat) {
    forall e :: e in events ==> e.Asks? && e.sharedBy == sharedBy
  }

  lemma {:induction false} RequestsAtCeiling(rate: real, events: seq<Event>, sharedBy: nat)
    requires Sensible(rate, events) && OnlyAsks(events, sharedBy) && sharedBy >= 1
    ensures AtRate(Requests(rate, events), rate / sharedBy as real)
    decreases |events|
  {
    if events != [] {
      assert events[0] in events;
      RequestsAtCeiling(rate, events[1..], sharedBy);
    }
    ShareIsPositive(rate, sharedBy);
  }

  lemma ShareIsPositive(rate: real, sharedBy: nat)
    requires rate > 0.0 && sharedBy >= 1
    ensures rate / sharedBy as real > 0.0
  {
  }

  lemma {:induction false} RequestsAfter(rate: real, before: seq<Event>, ceiling: real, after: seq<Event>)
    requires Sensible(rate, before + [Heeds(ceiling)] + after)
    ensures Sensible(rate, before) && Sensible(ceiling, after)
    ensures Requests(rate, before + [Heeds(ceiling)] + after) == Requests(rate, before) + Requests(ceiling, after)
    decreases |before|
  {
    var events := before + [Heeds(ceiling)] + after;
    assert Heeds(ceiling) in events;
    assert forall e :: e in before ==> e in events;
    assert forall e :: e in after ==> e in events;
    if before == [] {
      assert events[1..] == after;
    } else {
      assert before[0] in events && before[0] in before;
      assert events[1..] == before[1..] + [Heeds(ceiling)] + after;
      var rest := if before[0].Heeds? then before[0].ceiling else rate;
      RequestsAfter(rest, before[1..], ceiling, after);
    }
  }

  /** Where the budget of a host stands once some requests have been made. */
  ghost function AfterAll(nextAt: real, asks: seq<Ask>): real
    requires Positive(asks)
    decreases |asks|
  {
    if asks == [] then nextAt else AfterAll(After(nextAt, asks[0]), asks[1..])
  }

  lemma {:induction false} SlotsConcat(nextAt: real, asks: seq<Ask>, more: seq<Ask>)
    requires Positive(asks) && Positive(more) && Positive(asks + more)
    ensures Slots(nextAt, asks + more) == Slots(nextAt, asks) + Slots(AfterAll(nextAt, asks), more)
    decreases |asks|
  {
    if asks == [] {
      assert asks + more == more;
    } else {
      assert (asks + more)[1..] == asks[1..] + more;
      SlotsConcat(After(nextAt, asks[0]), asks[1..], more);
    }
  }

  lemma {:induction false} RequestsArePositive(rate: real, events: seq<Event>)
    requires Sensible(rate, events)
    ensures Positive(Requests(rate, events))
    decreases |events|
  {
    if events != [] {
      assert events[0] in events;
      if events[0].Asks? { ShareIsPositive(rate, events[0].sharedBy); }
      RequestsArePositive(if events[0].Heeds? then events[0].ceiling else rate, events[1..]);
    }
  }

  /**
   A ceiling governs every slot granted after it is named, until another is: whatever came before,
   those slots are its share apart, and a window holds no more of them than that share allows, and one.
   */
  lemma CeilingGoverns(
    nextAt: real, rate: real, before: seq<Event>, ceiling: real, after: seq<Event>, sharedBy: nat,
    from: real, window: real) returns (earlier: seq<Slot>, governed: seq<Slot>)
    requires Sensible(rate, before + [Heeds(ceiling)] + after) && OnlyAsks(after, sharedBy) && sharedBy >= 1
    requires window >= 0.0
    ensures Sensible(rate, before) && Positive(Requests(rate, before))
    ensures Positive(Requests(rate, before + [Heeds(ceiling)] + after))
    ensures earlier == Slots(nextAt, Requests(rate, before))
    ensures Slots(nextAt, Requests(rate, before + [Heeds(ceiling)] + after)) == earlier + governed
    ensures forall i, j :: 0 <= i < j < |governed| ==>
      governed[j].at >= governed[i].at + (j - i) as real * (1000.0 / (ceiling / sharedBy as real))
    ensures |Within(governed, from, window)| as real <= window * (ceiling / sharedBy as real) / 1000.0 + 1.0
  {
    hide Slots, AfterAll, Within, Requests;
    RequestsAfter(rate, before, ceiling, after);
    RequestsArePositive(rate, before + [Heeds(ceiling)] + after);
    RequestsArePositive(rate, before);
    RequestsArePositive(ceiling, after);
    var was, asks, share := Requests(rate, before), Requests(ceiling, after), ceiling / sharedBy as real;
    SlotsConcat(nextAt, was, asks);
    RequestsAtCeiling(ceiling, after, sharedBy);
    earlier, governed := Slots(nextAt, was), Slots(AfterAll(nextAt, was), asks);
    var gap := 1000.0 / share;
    forall i, j | 0 <= i < j < |governed| ensures governed[j].at >= governed[i].at + (j - i) as real * gap {
      ApartAtRate(AfterAll(nextAt, was), asks, share, gap, i, j);
    }
    WindowHoldsFew(AfterAll(nextAt, was), asks, share, from, window);
  }
}
