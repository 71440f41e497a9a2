/**
 The bech32 checksum: a register of thirty bits, stepped once for each word. Section "Checksum" of
 BIP 173.
 */
module Bech32 {
  type Word = bv5

  const MASK: bv32 := 0x1ffffff

  /** What each bit shifted out at the top puts back. */
  function Part0(top: bv32): bv32 { if top & 1 == 1 then 0x3b6a57b2 else 0 }
  function Part1(top: bv32): bv32 { if (top >> 1) & 1 == 1 then 0x26508e6d else 0 }
  function Part2(top: bv32): bv32 { if (top >> 2) & 1 == 1 then 0x1ea119fa else 0 }
  function Part3(top: bv32): bv32 { if (top >> 3) & 1 == 1 then 0x3d4233dd else 0 }
  function Part4(top: bv32): bv32 { if (top >> 4) & 1 == 1 then 0x2a1462b3 else 0 }

  function Part(top: bv32, bit: nat): bv32 {
    if bit == 0 then Part0(top)
    else if bit == 1 then Part1(top)
    else if bit == 2 then Part2(top)
    else if bit == 3 then Part3(top)
    else Part4(top)
  }

  function Fold(top: bv32): bv32 {
    Xor(Xor(Xor(Xor(Part0(top), Part1(top)), Part2(top)), Part3(top)), Part4(top))
  }

  function Kept(checksum: bv32): bv32 {
    (checksum & MASK) << 5
  }

  function Top(checksum: bv32): bv32 {
    checksum >> 25
  }

  function Wide(word: Word): bv32 {
    word as bv32
  }

  function Xor(a: bv32, b: bv32): bv32 {
    a ^ b
  }

  function Step(checksum: bv32, word: Word): bv32 {
    Xor(Xor(Kept(checksum), Wide(word)), Fold(Top(checksum)))
  }

  function Run(checksum: bv32, words: seq<Word>): bv32
    decreases |words|
  {
    if words == [] then checksum else Run(Step(checksum, words[0]), words[1..])
  }

  function Polymod(words: seq<Word>): bv32 {
    Run(1, words)
  }

  // ---------------------------------------------------------------- the loop

  ghost function FoldUpTo(top: bv32, bits: nat): bv32 {
    if bits == 0 then 0 else Xor(FoldUpTo(top, bits - 1), Part(top, bits - 1))
  }

  lemma XorLaws(a: bv32, b: bv32, c: bv32)
    ensures Xor(Xor(a, b), c) == Xor(a, Xor(b, c))
    ensures Xor(a, 0) == a
    ensures Xor(0, a) == a
  {
  }

  lemma FoldIsFiveParts(top: bv32)
    ensures FoldUpTo(top, 5) == Fold(top)
  {
    hide Part0, Part1, Part2, Part3, Part4, Xor;
    XorLaws(Part0(top), 0, 0);
    assert FoldUpTo(top, 1) == Part0(top);
    assert FoldUpTo(top, 2) == Xor(Part0(top), Part1(top));
    assert FoldUpTo(top, 3) == Xor(FoldUpTo(top, 2), Part2(top));
    assert FoldUpTo(top, 4) == Xor(FoldUpTo(top, 3), Part3(top));
  }

  method Bech32Polymod(words: seq<Word>) returns (checksum: bv32)
    ensures checksum == Polymod(words)
  {
    hide Kept, Top, Wide, Xor, Fold, Part;
    checksum := 1;
    for i := 0 to |words|
      invariant Run(checksum, words[i..]) == Polymod(words)
    {
      assert words[i..][1..] == words[i + 1..];
      var top := Top(checksum);
      var shifted := Xor(Kept(checksum), Wide(words[i]));
      checksum := shifted;
      XorLaws(shifted, 0, 0);
      for bit := 0 to 5
        invariant checksum == Xor(shifted, FoldUpTo(top, bit))
      {
        XorLaws(shifted, FoldUpTo(top, bit), Part(top, bit));
        checksum := Xor(checksum, Part(top, bit));
      }
      FoldIsFiveParts(top);
    }
  }

  // ---------------------------------------------------------------- one step

  lemma XorIs(a: bv32, b: bv32)
    ensures Xor(a, b) == a ^ b
  {
  }

  lemma Exchange(a: bv32, b: bv32, c: bv32, d: bv32)
    ensures Xor(Xor(a, b), Xor(c, d)) == Xor(Xor(a, c), Xor(b, d))
  {
    hide Xor;
    XorLaws(a, b, Xor(c, d));
    XorLaws(b, c, d);
    XorCommutes(b, c);
    XorLaws(c, b, d);
    XorLaws(a, c, Xor(b, d));
  }

  lemma XorCommutes(a: bv32, b: bv32)
    ensures Xor(a, b) == Xor(b, a)
  {
  }

  lemma PartsSplit(s: bv32, t: bv32)
    ensures Part0(s ^ t) == Part0(s) ^ Part0(t)
    ensures Part1(s ^ t) == Part1(s) ^ Part1(t)
    ensures Part2(s ^ t) == Part2(s) ^ Part2(t)
    ensures Part3(s ^ t) == Part3(s) ^ Part3(t)
    ensures Part4(s ^ t) == Part4(s) ^ Part4(t)
  {
  }

  lemma PartsAreLinear(s: bv32, t: bv32)
    ensures Part0(Xor(s, t)) == Xor(Part0(s), Part0(t))
    ensures Part1(Xor(s, t)) == Xor(Part1(s), Part1(t))
    ensures Part2(Xor(s, t)) == Xor(Part2(s), Part2(t))
    ensures Part3(Xor(s, t)) == Xor(Part3(s), Part3(t))
    ensures Part4(Xor(s, t)) == Xor(Part4(s), Part4(t))
  {
    hide Xor, Part0, Part1, Part2, Part3, Part4;
    XorIs(s, t);
    XorIs(Part0(s), Part0(t));
    XorIs(Part1(s), Part1(t));
    XorIs(Part2(s), Part2(t));
    XorIs(Part3(s), Part3(t));
    XorIs(Part4(s), Part4(t));
    PartsSplit(s, t);
  }

  lemma FoldIsLinear(s: bv32, t: bv32)
    ensures Fold(Xor(s, t)) == Xor(Fold(s), Fold(t))
  {
    hide Part0, Part1, Part2, Part3, Part4, Xor;
    PartsAreLinear(s, t);
    var s1, t1 := Xor(Part0(s), Part1(s)), Xor(Part0(t), Part1(t));
    var s2, t2 := Xor(s1, Part2(s)), Xor(t1, Part2(t));
    Exchange(Part0(s), Part0(t), Part1(s), Part1(t));
    Exchange(s1, t1, Part2(s), Part2(t));
    Exchange(s2, t2, Part3(s), Part3(t));
    Exchange(Xor(s2, Part3(s)), Xor(t2, Part3(t)), Part4(s), Part4(t));
  }

  lemma ShiftsSplit(a: bv32, b: bv32)
    ensures ((a ^ b) & MASK) << 5 == ((a & MASK) << 5) ^ ((b & MASK) << 5)
    ensures (a ^ b) >> 25 == (a >> 25) ^ (b >> 25)
  {
  }

  lemma ShiftsAreLinear(a: bv32, b: bv32)
    ensures Kept(Xor(a, b)) == Xor(Kept(a), Kept(b))
    ensures Top(Xor(a, b)) == Xor(Top(a), Top(b))
  {
    hide Xor;
    XorIs(a, b);
    XorIs(Kept(a), Kept(b));
    XorIs(Top(a), Top(b));
    ShiftsSplit(a, b);
  }

  lemma WideningIsLinear(u: Word, v: Word)
    ensures Wide(u ^ v) == Xor(Wide(u), Wide(v))
  {
  }

  /** Stepping a difference gives the difference of the steps. */
  lemma StepIsLinear(a: bv32, b: bv32, u: Word, v: Word)
    ensures Step(Xor(a, b), u ^ v) == Xor(Step(a, u), Step(b, v))
  {
    hide Fold, Kept, Top, Wide, Xor;
    ShiftsAreLinear(a, b);
    WideningIsLinear(u, v);
    FoldIsLinear(Top(a), Top(b));
    Exchange(Kept(a), Kept(b), Wide(u), Wide(v));
    Exchange(Xor(Kept(a), Wide(u)), Xor(Kept(b), Wide(v)), Fold(Top(a)), Fold(Top(b)));
  }

  predicate ThirtyBits(checksum: bv32) {
    checksum < 0x4000_0000
  }

  lemma StepKeepsThirtyBits(a: bv32, u: Word)
    requires ThirtyBits(a)
    ensures ThirtyBits(Step(a, u))
  {
  }

  /** No difference dies out while the words agree: the generators' low bits are independent. */
  lemma StepIsInjective(a: bv32)
    requires ThirtyBits(a) && Step(a, 0) == 0
    ensures a == 0
  {
  }

  // ---------------------------------------------------------------- whole strings

  /** Word by word. */
  function Xored(u: seq<Word>, v: seq<Word>): (w: seq<Word>)
    requires |u| == |v|
    ensures |w| == |u|
  {
    seq(|u|, i requires 0 <= i < |u| => u[i] ^ v[i])
  }

  lemma {:induction false} RunIsLinear(a: bv32, b: bv32, u: seq<Word>, v: seq<Word>)
    requires |u| == |v|
    ensures Run(Xor(a, b), Xored(u, v)) == Xor(Run(a, u), Run(b, v))
    decreases |u|
  {
    hide Step, Xor;
    if u != [] {
      StepIsLinear(a, b, u[0], v[0]);
      RunIsLinear(Step(a, u[0]), Step(b, v[0]), u[1..], v[1..]);
      assert Xored(u, v)[1..] == Xored(u[1..], v[1..]);
    }
  }

  lemma {:induction false} RunConcat(a: bv32, u: seq<Word>, v: seq<Word>)
    ensures Run(a, u + v) == Run(Run(a, u), v)
    decreases |u|
  {
    hide Step;
    if u == [] {
      assert u + v == v;
    } else {
      RunConcat(Step(a, u[0]), u[1..], v);
      assert (u + v)[1..] == u[1..] + v;
    }
  }

  function Zeros(n: nat): (zeros: seq<Word>)
    ensures |zeros| == n
  {
    seq(n, _ => 0)
  }

  lemma {:induction false} RunKeepsThirtyBits(a: bv32, u: seq<Word>)
    requires ThirtyBits(a)
    ensures ThirtyBits(Run(a, u))
    decreases |u|
  {
    hide Step;
    if u != [] {
      StepKeepsThirtyBits(a, u[0]);
      RunKeepsThirtyBits(Step(a, u[0]), u[1..]);
    }
  }

  /** A difference is still there after any number of words that agree. */
  lemma {:induction false} DifferencesLast(a: bv32, n: nat)
    requires ThirtyBits(a) && Run(a, Zeros(n)) == 0
    ensures a == 0
    decreases n
  {
    hide Step;
    if n > 0 {
      StepKeepsThirtyBits(a, 0);
      assert Zeros(n)[1..] == Zeros(n - 1);
      DifferencesLast(Step(a, 0), n - 1);
      StepIsInjective(a);
    }
  }

  lemma {:induction false} ZeroStaysZero(n: nat)
    ensures Run(0, Zeros(n)) == 0
    decreases n
  {
    hide Step;
    if n > 0 {
      StepOfZero(0);
      assert Zeros(n)[1..] == Zeros(n - 1);
      ZeroStaysZero(n - 1);
    }
  }

  lemma StepOfZero(u: Word)
    ensures Step(0, u) == Wide(u)
  {
  }

  /** A register with room for a word takes it whole: from nothing but zeros comes zero. */
  lemma RoomForAWord(a: bv32, u: Word)
    requires a < 0x200_0000 && Step(a, u) == 0
    ensures a == 0 && u == 0
  {
  }

  lemma FiveBitsMore(a: bv32, u: Word)
    ensures a < 0x1 ==> Step(a, u) < 0x20
    ensures a < 0x20 ==> Step(a, u) < 0x400
    ensures a < 0x400 ==> Step(a, u) < 0x8000
    ensures a < 0x8000 ==> Step(a, u) < 0x10_0000
    ensures a < 0x10_0000 ==> Step(a, u) < 0x200_0000
  {
  }

  /** Six words from an empty register fill it, five bits each: nothing is shifted out and nothing lost. */
  lemma SixWordsFill(u0: Word, u1: Word, u2: Word, u3: Word, u4: Word, u5: Word)
    requires Step(Step(Step(Step(Step(Step(0, u0), u1), u2), u3), u4), u5) == 0
    ensures u0 == 0 && u1 == 0 && u2 == 0 && u3 == 0 && u4 == 0 && u5 == 0
  {
    hide Step;
    var a := Step(0, u0);
    var b := Step(a, u1);
    var c := Step(b, u2);
    var d := Step(c, u3);
    var e := Step(d, u4);
    FiveBitsMore(0, u0);
    FiveBitsMore(a, u1);
    FiveBitsMore(b, u2);
    FiveBitsMore(c, u3);
    FiveBitsMore(d, u4);
    RoomForAWord(e, u5);
    RoomForAWord(d, u4);
    RoomForAWord(c, u3);
    RoomForAWord(b, u2);
    RoomForAWord(a, u1);
    RoomForAWord(0, u0);
  }

  lemma SixSteps(a: bv32, w: seq<Word>)
    requires |w| == 6
    ensures Run(a, w) == Step(Step(Step(Step(Step(Step(a, w[0]), w[1]), w[2]), w[3]), w[4]), w[5])
  {
    hide Step;
    var b := Step(Step(a, w[0]), w[1]);
    var c := Step(Step(b, w[2]), w[3]);
    assert w[1..][1..] == w[2..] && w[2..][1..] == w[3..] && w[3..][1..] == w[4..] && w[4..][1..] == w[5..];
    assert Run(a, w) == Run(b, w[2..]);
    assert Run(b, w[2..]) == Run(c, w[4..]);
    assert Run(c, w[4..]) == Run(Step(c, w[4]), w[5..]);
    assert w[5..] == [w[5]];
    assert [w[5]][1..] == [];
    assert Run(Step(c, w[4]), [w[5]]) == Run(Step(Step(c, w[4]), w[5]), []);
  }

  lemma SixWordsLast(w: seq<Word>)
    requires |w| == 6 && Run(0, w) == 0
    ensures w == Zeros(6)
  {
    hide Step;
    SixSteps(0, w);
    SixWordsFill(w[0], w[1], w[2], w[3], w[4], w[5]);
  }

  /** A burst of up to six words leaves a difference in the register. */
  lemma BurstsLast(w: seq<Word>)
    requires |w| <= 6 && Run(0, w) == 0
    ensures w == Zeros(|w|)
  {
    hide Run;
    var pad := Zeros(6 - |w|);
    RunConcat(0, pad, w);
    ZeroStaysZero(6 - |w|);
    SixWordsLast(pad + w);
    assert w == (pad + w)[6 - |w|..];
  }

  /** Where two strings of words differ only from `start` on, for at most six words. */
  predicate DifferInBurst(u: seq<Word>, v: seq<Word>, start: nat) {
    && |u| == |v|
    && forall i :: 0 <= i < |u| && (i < start || start + 6 <= i) ==> u[i] == v[i]
  }

  lemma XoredBurst(u: seq<Word>, v: seq<Word>, start: nat) returns (w: seq<Word>, rest: nat)
    requires DifferInBurst(u, v, start) && start <= |u|
    ensures |w| <= 6 && Xored(u, v) == Zeros(start) + w + Zeros(rest)
  {
    var d := Xored(u, v);
    var end := if start + 6 <= |u| then start + 6 else |u|;
    w, rest := d[start..end], |u| - end;
    assert d[..start] == Zeros(start);
    assert d[end..] == Zeros(rest);
    assert d == d[..start] + d[start..end] + d[end..];
  }

  /**
   The theorem: strings of any length that differ only inside six consecutive words never share a
   checksum.
   */
  lemma BurstsAreDetected(u: seq<Word>, v: seq<Word>, start: nat)
    requires DifferInBurst(u, v, start) && start <= |u| && Polymod(u) == Polymod(v)
    ensures u == v
  {
    hide Run, Step, ThirtyBits, Zeros, Xored;
    var w, rest := XoredBurst(u, v, start);
    RunIsLinear(1, 1, u, v);
    SelfCancels(1);
    SelfCancels(Polymod(u));
    RunConcat(0, Zeros(start) + w, Zeros(rest));
    RunConcat(0, Zeros(start), w);
    ZeroStaysZero(start);
    ZeroHasThirtyBits();
    RunKeepsThirtyBits(0, w);
    DifferencesLast(Run(0, w), rest);
    BurstsLast(w);
    AllZeros(start, |w|, rest);
    ZeroDifference(u, v);
  }

  lemma SelfCancels(a: bv32)
    ensures Xor(a, a) == 0
  {
  }

  lemma ZeroHasThirtyBits()
    ensures ThirtyBits(0)
  {
  }

  lemma AllZeros(a: nat, b: nat, c: nat)
    ensures Zeros(a) + Zeros(b) + Zeros(c) == Zeros(a + b + c)
  {
  }

  lemma WordsCancel(u: Word, v: Word)
    requires u ^ v == 0
    ensures u == v
  {
  }

  lemma ZeroDifference(u: seq<Word>, v: seq<Word>)
    requires |u| == |v| && Xored(u, v) == Zeros(|u|)
    ensures u == v
  {
    forall i | 0 <= i < |u| ensures u[i] == v[i] {
      assert Xored(u, v)[i] == 0;
      WordsCancel(u[i], v[i]);
    }
  }

  // ---------------------------------------------------------------- making a checksum

  function Slice(value: bv32, slot: nat): Word
    requires slot < 6
  {
    if slot == 0 then ((value >> 25) & 31) as Word
    else if slot == 1 then ((value >> 20) & 31) as Word
    else if slot == 2 then ((value >> 15) & 31) as Word
    else if slot == 3 then ((value >> 10) & 31) as Word
    else if slot == 4 then ((value >> 5) & 31) as Word
    else (value & 31) as Word
  }

  /** The six words that make a string's checksum come out at 1. */
  function ChecksumWords(values: seq<Word>): (words: seq<Word>)
    ensures |words| == 6
  {
    var polymod := Xor(Polymod(values + Zeros(6)), 1);
    seq(6, slot requires 0 <= slot < 6 => Slice(polymod, slot))
  }

  /** A register emptied into six words fills up again to what it was. */
  lemma SlicesFill(m: bv32)
    requires ThirtyBits(m)
    ensures Step(Step(Step(Step(Step(Step(
      0, Slice(m, 0)), Slice(m, 1)), Slice(m, 2)), Slice(m, 3)), Slice(m, 4)), Slice(m, 5)) == m
  {
  }

  lemma ThirtyBitsAndOne(m: bv32)
    requires ThirtyBits(m)
    ensures ThirtyBits(Xor(m, 1)) && Xor(m, Xor(m, 1)) == 1
  {
  }

  /** Whatever the words, the checksum computed for them checks. */
  lemma ChecksumChecks(values: seq<Word>)
    ensures Polymod(values + ChecksumWords(values)) == 1
  {
    hide Run, Step, ThirtyBits, Slice, Xored, Xor;
    var c, y := ChecksumWords(values), Run(1, values);
    var m := Xor(Run(y, Zeros(6)), 1);
    RunConcat(1, values, c);
    RunConcat(1, values, Zeros(6));
    OneHasThirtyBits();
    RunKeepsThirtyBits(1, values);
    RunKeepsThirtyBits(y, Zeros(6));
    ThirtyBitsAndOne(Run(y, Zeros(6)));
    SixSteps(0, c);
    SlicesFill(m);
    RunIsLinear(y, 0, Zeros(6), c);
    XorLaws(y, 0, 0);
    NoDifference(c);
  }

  lemma OneHasThirtyBits()
    ensures ThirtyBits(1)
  {
  }

  lemma XorWithZero(u: Word)
    ensures 0 ^ u == u
  {
  }

  lemma NoDifference(c: seq<Word>)
    ensures Xored(Zeros(|c|), c) == c
  {
    forall i | 0 <= i < |c| ensures Xored(Zeros(|c|), c)[i] == c[i] {
      XorWithZero(c[i]);
    }
  }
}
