/**
 Reading a bank statement with several tokens in turn. Each token has a window in which it may be
 used once, and reads are paced so that the tokens come round evenly.
 */
module Fio {
  import opened Options

  type Token = string

  predicate DistinctTokens(tokens: seq<Token>) {
    forall i, j :: 0 <= i < j < |tokens| ==> tokens[i] != tokens[j]
  }

  /** The keys of a map built from a list, in the order they were first named. */
  function Named(list: seq<Token>): (tokens: seq<Token>)
    ensures DistinctTokens(tokens)
    ensures forall t :: t in tokens <==> t in list
  {
    if list == [] then []
    else
      var rest, last := Named(list[..|list| - 1]), list[|list| - 1];
      assert list == list[..|list| - 1] + [last];
      if last in rest then rest else rest + [last]
  }

  /**
   When each token was last used, and when the statement was last read; never counts as earlier than
   any time.
   */
  datatype Memory = Memory(usedAt: map<Token, Option<real>>, lastRead: Option<real>)

  predicate NoLater(a: Option<real>, b: Option<real>) {
    a.None? || (b.Some? && a.value <= b.value)
  }

  /** One time lies at least a span before another, or never was. */
  predicate Apart(a: Option<real>, b: Option<real>, span: real) {
    a.None? || (b.Some? && a.value + span <= b.value)
  }

  /** Whether a whole span has passed since. */
  predicate Passed(since: Option<real>, now: real, span: real) {
    since.None? || now - since.value >= span
  }

  /** `longestUnused`: the first of the tokens used least recently. */
  method LongestUnused(tokens: seq<Token>, usedAt: map<Token, Option<real>>) returns (idlest: Token)
    requires tokens != [] && forall t :: t in tokens ==> t in usedAt
    ensures idlest in tokens
    ensures forall t :: t in tokens ==> NoLater(usedAt[idlest], usedAt[t])
  {
    idlest := tokens[0];
    for i := 1 to |tokens|
      invariant idlest in tokens
      invariant forall j :: 0 <= j < i ==> NoLater(usedAt[idlest], usedAt[tokens[j]])
    {
      if !NoLater(usedAt[idlest], usedAt[tokens[i]]) { idlest := tokens[i]; }
    }
  }

  // ---------------------------------------------------------------- the rota

  /** So many paces. */
  ghost function Paces(count: int, pace: real): real {
    count as real * pace
  }

  lemma OnePaceMore(a: int, b: int, pace: real)
    requires b <= a + 1 && pace >= 0.0
    ensures Paces(b, pace) <= Paces(a, pace) + pace
  {
    assert (a + 1) as real * pace == a as real * pace + pace;
    assert (a + 1 - b) as real * pace >= 0.0;
  }

  lemma PacesShareOut(count: nat, window: real)
    requires count > 0
    ensures Paces(count, window / count as real) == window
  {
  }

  lemma PaceIsNonNegative(window: real, count: nat)
    requires window >= 0.0 && count > 0
    ensures window / count as real >= 0.0
  {
  }

  /** The settings of a reader: its tokens, a token's window, and the window shared out among them. */
  ghost predicate Shared(tokens: seq<Token>, window: real, pace: real) {
    |tokens| > 0 && DistinctTokens(tokens) && pace >= 0.0 && Paces(|tokens|, pace) == window
  }

  /**
   The tokens in the order they come round: each was last used at least a pace before the next in
   line, and the last in line at the last read.
   */
  ghost predicate Rota(tokens: seq<Token>, pace: real, m: Memory, order: seq<Token>) {
    && |tokens| > 0 && Reorders(tokens, order) && (forall t :: t in tokens <==> t in m.usedAt)
    && (forall i :: 0 <= i < |order| ==> InLine(pace, m, order, i))
    && m.lastRead == m.usedAt[order[|order| - 1]]
  }

  ghost predicate Reorders(tokens: seq<Token>, order: seq<Token>) {
    |order| == |tokens| && DistinctTokens(order) && forall t :: t in order <==> t in tokens
  }

  ghost predicate InLine(pace: real, m: Memory, order: seq<Token>, i: nat)
    requires i < |order|
  {
    order[i] in m.usedAt && Apart(m.usedAt[order[i]], m.lastRead, Paces(|order| - 1 - i, pace))
  }

  /** The token chosen was used no later than the first in line, so by the next pace its window is over. */
  lemma IdlestIsPastItsWindow(
    tokens: seq<Token>, window: real, pace: real, m: Memory, order: seq<Token>, idlest: Token, now: real)
    requires Shared(tokens, window, pace) && Rota(tokens, pace, m, order)
    requires idlest in tokens && forall t :: t in tokens ==> NoLater(m.usedAt[idlest], m.usedAt[t])
    requires Passed(m.lastRead, now, pace)
    ensures Passed(m.usedAt[idlest], now, window)
  {
    hide Paces;
    var n := |order|;
    assert order[0] in tokens;
    assert InLine(pace, m, order, 0);
    OnePaceMore(n - 1, n, pace);
  }

  function Turned(order: seq<Token>, k: nat): seq<Token>
    requires k < |order|
  {
    order[..k] + order[k + 1..] + [order[k]]
  }

  lemma TurnedReorders(tokens: seq<Token>, order: seq<Token>, k: nat)
    requires Reorders(tokens, order) && k < |order|
    ensures Reorders(tokens, Turned(order, k))
  {
    assert order == order[..k] + [order[k]] + order[k + 1..];
    forall t ensures t in Turned(order, k) <==> t in order {}
  }

  lemma StaysInLine(pace: real, m: Memory, order: seq<Token>, k: nat, now: real, i: nat)
    requires pace >= 0.0 && DistinctTokens(order) && k < |order| && i < |order| && order[k] in m.usedAt
    requires Passed(m.lastRead, now, pace)
    requires InLine(pace, m, order, if i < k then i else if i < |order| - 1 then i + 1 else k)
    ensures InLine(pace, Memory(m.usedAt[order[k] := Some(now)], Some(now)), Turned(order, k), i)
  {
    hide Paces;
    var n := |order|;
    if i < n - 1 {
      var was := if i < k then i else i + 1;
      assert Turned(order, k)[i] == order[was] && order[was] != order[k];
      OnePaceMore(n - 1 - was, n - 1 - i, pace);
    } else {
      NoPaces(pace);
    }
  }

  /** After a read the token used goes to the end of the line. */
  lemma RotaTurns(tokens: seq<Token>, pace: real, m: Memory, order: seq<Token>, used: Token, now: real)
    returns (turned: seq<Token>)
    requires pace >= 0.0 && Rota(tokens, pace, m, order) && used in tokens && Passed(m.lastRead, now, pace)
    ensures Rota(tokens, pace, Memory(m.usedAt[used := Some(now)], Some(now)), turned)
  {
    hide InLine, Passed, DistinctTokens;
    assert used in order;
    var k :| 0 <= k < |order| && order[k] == used;
    turned := Turned(order, k);
    TurnedReorders(tokens, order, k);
    var after := Memory(m.usedAt[used := Some(now)], Some(now));
    forall i | 0 <= i < |order| ensures InLine(pace, after, turned, i) {
      StaysInLine(pace, m, order, k, now, i);
    }
  }

  lemma NoPaces(pace: real)
    ensures Paces(0, pace) == 0.0
  {
  }

  lemma NobodyUsedYet(tokens: seq<Token>, pace: real, m: Memory)
    requires tokens != [] && DistinctTokens(tokens) && m.lastRead.None?
    requires (forall t :: t in tokens <==> t in m.usedAt) && (forall t :: t in m.usedAt ==> m.usedAt[t].None?)
    ensures Rota(tokens, pace, m, tokens)
  {
  }

  class Reader {
    const tokens: seq<Token>
    const window: real
    const pace: real
    var usedAt: map<Token, Option<real>>
    var lastRead: Option<real>
    ghost var order: seq<Token>

    function Remembers(): Memory
      reads this
    {
      Memory(usedAt, lastRead)
    }

    ghost predicate Valid()
      reads this
    {
      Shared(tokens, window, pace) && Rota(tokens, pace, Remembers(), order)
    }

    constructor (list: seq<Token>, window: real)
      requires list != [] && window >= 0.0
      ensures Valid() && tokens == Named(list) && this.window == window
      ensures lastRead.None? && forall t :: t in usedAt ==> usedAt[t].None?
    {
      hide Paces, Named;
      assert list[0] in Named(list);
      var keys := Named(list);
      PacesShareOut(|keys|, window);
      PaceIsNonNegative(window, |keys|);
      tokens, this.window, pace := keys, window, window / |keys| as real;
      lastRead, order := None, keys;
      usedAt := map t | t in keys :: None;
      new;
      NobodyUsedYet(tokens, pace, Remembers());
    }

    /**
     Reads exactly when a pace has passed since the last read, on whatever clock, with a token
     whose own window is over: the second refusal never happens.
     */
    method Read(now: real) returns (read: Option<Token>)
      requires Valid()
      modifies this
      ensures Valid()
      ensures read.Some? <==> Passed(old(lastRead), now, pace)
      ensures Reads(tokens, window, pace, old(Remembers()), now, Remembers(), read)
    {
      if !Passed(lastRead, now, pace) { return None; }
      var idlest := LongestUnused(tokens, usedAt);
      IdlestIsPastItsWindow(tokens, window, pace, Remembers(), order, idlest, now);
      if !Passed(usedAt[idlest], now, window) { return None; }
      var turned := RotaTurns(tokens, pace, Remembers(), order, idlest, now);
      usedAt, lastRead := usedAt[idlest := Some(now)], Some(now);
      order := turned;
      read := Some(idlest);
    }
  }

  // ---------------------------------------------------------------- runs

  ghost predicate Idlest(tokens: seq<Token>, m: Memory, token: Token) {
    && token in tokens && token in m.usedAt
    && forall t :: t in tokens && t in m.usedAt ==> NoLater(m.usedAt[token], m.usedAt[t])
  }

  /** One call as the code makes it: two refusals, or a token used. */
  ghost predicate Reads(
    tokens: seq<Token>, window: real, pace: real, m: Memory, now: real, after: Memory, read: Option<Token>)
  {
    match read
    case None =>
      && after == m
      && (!Passed(m.lastRead, now, pace)
          || exists token :: Idlest(tokens, m, token) && !Passed(m.usedAt[token], now, window))
    case Some(token) =>
      && Idlest(tokens, m, token)
      && Passed(m.lastRead, now, pace) && Passed(m.usedAt[token], now, window)
      && after == Memory(m.usedAt[token := Some(now)], Some(now))
  }

  ghost predicate Run(
    tokens: seq<Token>, window: real, pace: real, trace: seq<Memory>, clock: seq<real>, used: seq<Option<Token>>)
  {
    && Shared(tokens, window, pace)
    && |trace| == |clock| + 1 == |used| + 1
    && trace[0].lastRead.None? && (forall t :: t in tokens <==> t in trace[0].usedAt)
    && (forall t :: t in trace[0].usedAt ==> trace[0].usedAt[t].None?)
    && (forall n :: 0 <= n < |clock| ==> Reads(tokens, window, pace, trace[n], clock[n], trace[n + 1], used[n]))
  }

  /** What was used or read at some time is remembered from then on, or something later is. */
  lemma {:induction false} Remembered(
    tokens: seq<Token>, window: real, pace: real, trace: seq<Memory>, clock: seq<real>, used: seq<Option<Token>>,
    i: nat, n: nat)
    requires Run(tokens, window, pace, trace, clock, used) && i < n < |trace| && used[i].Some?
    ensures trace[n].lastRead.Some? && clock[i] <= trace[n].lastRead.value
    ensures used[i].value in trace[n].usedAt && trace[n].usedAt[used[i].value].Some?
    ensures clock[i] <= trace[n].usedAt[used[i].value].value
    decreases n
  {
    assert Reads(tokens, window, pace, trace[n - 1], clock[n - 1], trace[n], used[n - 1]);
    if i < n - 1 {
      Remembered(tokens, window, pace, trace, clock, used, i, n - 1);
    }
  }

  /** In every run, on any clock, reads are a pace apart and uses of one token a window apart. */
  lemma TokensKeepTheirWindows(
    tokens: seq<Token>, window: real, pace: real, trace: seq<Memory>, clock: seq<real>, used: seq<Option<Token>>,
    i: nat, j: nat)
    requires Run(tokens, window, pace, trace, clock, used) && i < j < |clock| && used[i].Some? && used[j].Some?
    ensures clock[j] - clock[i] >= pace
    ensures used[i] == used[j] ==> clock[j] - clock[i] >= window
  {
    Remembered(tokens, window, pace, trace, clock, used, i, j);
    assert Reads(tokens, window, pace, trace[j], clock[j], trace[j + 1], used[j]);
  }

  lemma {:induction false} RunKeepsRota(
    tokens: seq<Token>, window: real, pace: real, trace: seq<Memory>, clock: seq<real>, used: seq<Option<Token>>,
    n: nat) returns (order: seq<Token>)
    requires Run(tokens, window, pace, trace, clock, used) && n < |trace|
    ensures Rota(tokens, pace, trace[n], order)
  {
    hide Rota;
    if n == 0 {
      order := tokens;
      NobodyUsedYet(tokens, pace, trace[0]);
    } else {
      order := RunKeepsRota(tokens, window, pace, trace, clock, used, n - 1);
      assert Reads(tokens, window, pace, trace[n - 1], clock[n - 1], trace[n], used[n - 1]);
      if used[n - 1].Some? {
        order := RotaTurns(tokens, pace, trace[n - 1], order, used[n - 1].value, clock[n - 1]);
      }
    }
  }

  /** In every run a call reads exactly when a pace has passed: a token is always ready by then. */
  lemma ReadsEveryPace(
    tokens: seq<Token>, window: real, pace: real, trace: seq<Memory>, clock: seq<real>, used: seq<Option<Token>>,
    n: nat)
    requires Run(tokens, window, pace, trace, clock, used) && n < |clock|
    ensures used[n].Some? <==> Passed(trace[n].lastRead, clock[n], pace)
  {
    hide Rota, Passed;
    var order := RunKeepsRota(tokens, window, pace, trace, clock, used, n);
    assert Reads(tokens, window, pace, trace[n], clock[n], trace[n + 1], used[n]);
    if Passed(trace[n].lastRead, clock[n], pace) {
      forall token | Idlest(tokens, trace[n], token) ensures Passed(trace[n].usedAt[token], clock[n], window) {
        RotaKnows(tokens, pace, trace[n], order);
        IdlestIsPastItsWindow(tokens, window, pace, trace[n], order, token, clock[n]);
      }
    }
  }

  lemma RotaKnows(tokens: seq<Token>, pace: real, m: Memory, order: seq<Token>)
    requires Rota(tokens, pace, m, order)
    ensures forall t :: t in tokens ==> t in m.usedAt
  {
  }
}
