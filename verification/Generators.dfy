/**
 Which code the checksum is of: words are the elements of GF(32), strings of them polynomials with the
 leading coefficient first, and the register holds what is left of a string divided by the generator
 of BIP 173, section "Checksum".
 */
module Generators {
  import opened Bech32

  /** Times the element whose powers make up the field, whose fifth power is its third and one. */
  function Doubled(a: Word): Word {
    if a & 16 == 16 then (a << 1) ^ 9 else a << 1
  }

  function Plus(a: Word, b: Word): Word {
    a ^ b
  }

  function Times(a: Word, b: Word): Word {
    var two := Doubled(a);
    var four := Doubled(two);
    var eight := Doubled(four);
    var sixteen := Doubled(eight);
    (if b & 1 == 1 then a else 0) ^ (if b & 2 == 2 then two else 0) ^ (if b & 4 == 4 then four else 0)
    ^ (if b & 8 == 8 then eight else 0) ^ (if b & 16 == 16 then sixteen else 0)
  }

  /** The generator but for its leading coefficient, which is one. */
  function Coefficient(i: nat): Word
    requires i < 6
  {
    if i == 0 then 29 else if i == 1 then 22 else if i == 2 then 20
    else if i == 3 then 21 else if i == 4 then 29 else 18
  }

  /** What a word shifted out at the top puts back is that multiple of the generator. */
  lemma FoldIsAMultiple(a: Word)
    ensures Slice(Fold(Wide(a)), 0) == Times(a, 29)
    ensures Slice(Fold(Wide(a)), 1) == Times(a, 22)
    ensures Slice(Fold(Wide(a)), 2) == Times(a, 20)
    ensures Slice(Fold(Wide(a)), 3) == Times(a, 21)
    ensures Slice(Fold(Wide(a)), 4) == Times(a, 29)
    ensures Slice(Fold(Wide(a)), 5) == Times(a, 18)
  {
  }

  lemma Slice0Splits(a: bv32, b: bv32)
    ensures Slice(Xor(a, b), 0) == Plus(Slice(a, 0), Slice(b, 0))
  {
  }

  lemma Slice1Splits(a: bv32, b: bv32)
    ensures Slice(Xor(a, b), 1) == Plus(Slice(a, 1), Slice(b, 1))
  {
  }

  lemma Slice2Splits(a: bv32, b: bv32)
    ensures Slice(Xor(a, b), 2) == Plus(Slice(a, 2), Slice(b, 2))
  {
  }

  lemma Slice3Splits(a: bv32, b: bv32)
    ensures Slice(Xor(a, b), 3) == Plus(Slice(a, 3), Slice(b, 3))
  {
  }

  lemma Slice4Splits(a: bv32, b: bv32)
    ensures Slice(Xor(a, b), 4) == Plus(Slice(a, 4), Slice(b, 4))
  {
  }

  lemma Slice5Splits(a: bv32, b: bv32)
    ensures Slice(Xor(a, b), 5) == Plus(Slice(a, 5), Slice(b, 5))
  {
  }

  lemma SlicesSplit(a: bv32, b: bv32, i: nat)
    requires i < 6
    ensures Slice(Xor(a, b), i) == Plus(Slice(a, i), Slice(b, i))
  {
    hide Slice, Plus, Xor;
    match i
    case 0 => Slice0Splits(a, b);
    case 1 => Slice1Splits(a, b);
    case 2 => Slice2Splits(a, b);
    case 3 => Slice3Splits(a, b);
    case 4 => Slice4Splits(a, b);
    case 5 => Slice5Splits(a, b);
  }

  lemma ShiftedSlices(a: bv32, w: Word)
    ensures Slice(Xor(Kept(a), Wide(w)), 0) == Slice(a, 1)
    ensures Slice(Xor(Kept(a), Wide(w)), 1) == Slice(a, 2)
    ensures Slice(Xor(Kept(a), Wide(w)), 2) == Slice(a, 3)
    ensures Slice(Xor(Kept(a), Wide(w)), 3) == Slice(a, 4)
    ensures Slice(Xor(Kept(a), Wide(w)), 4) == Slice(a, 5)
    ensures Slice(Xor(Kept(a), Wide(w)), 5) == w
  {
  }

  lemma FoldReadsFiveBits(a: bv32)
    ensures Fold(Top(a)) == Fold(Wide(Slice(a, 0)))
  {
  }

  /** One step: the register moves up by a word, and the word moved out comes back as a multiple. */
  lemma StepDivides(a: bv32, w: Word, i: nat)
    requires i < 6
    ensures Slice(Step(a, w), i)
      == Plus(if i < 5 then Slice(a, i + 1) else w, Times(Slice(a, 0), Coefficient(i)))
  {
    hide Fold, Kept, Wide, Xor, Top, Times, Slice, Plus;
    SlicesSplit(Xor(Kept(a), Wide(w)), Fold(Top(a)), i);
    ShiftedSlices(a, w);
    FoldReadsFiveBits(a);
    FoldIsAMultiple(Slice(a, 0));
  }

  // ---------------------------------------------------------------- the whole string

  function Sum(p: seq<Word>, q: seq<Word>): (sum: seq<Word>)
    requires |p| == |q|
    ensures |sum| == |p|
  {
    seq(|p|, i requires 0 <= i < |p| => Plus(p[i], q[i]))
  }

  /** The generator times one element, but for the leading coefficient, above so many zero coefficients. */
  function Multiple(a: Word, below: nat): (p: seq<Word>)
    ensures |p| == 6 + below
  {
    seq(6, i requires 0 <= i < 6 => Times(a, Coefficient(i))) + Zeros(below)
  }

  /** A polynomial times the generator. */
  function Product(q: seq<Word>): (p: seq<Word>)
    ensures |p| == |q| + 6
  {
    if q == [] then Zeros(6) else [q[0]] + Sum(Multiple(q[0], |q| - 1), Product(q[1..]))
  }

  /** A polynomial under so many zero coefficients. */
  function Padded(zeros: nat, p: seq<Word>): (padded: seq<Word>)
    ensures |padded| == zeros + |p|
  {
    Zeros(zeros) + p
  }

  /** `dividend` is a quotient times the generator, and a remainder. */
  ghost predicate Divides(dividend: seq<Word>, quotient: seq<Word>, remainder: seq<Word>) {
    && |remainder| == 6 && |dividend| == |quotient| + 6
    && dividend == Sum(Product(quotient), Padded(|quotient|, remainder))
  }

  lemma PlusLaws(a: Word, b: Word, c: Word)
    ensures Plus(a, 0) == a && Plus(0, a) == a && Plus(Plus(a, b), b) == a
    ensures Plus(Plus(a, b), c) == Plus(a, Plus(b, c)) && Plus(a, b) == Plus(b, a)
  {
  }

  lemma SumWithZeros(p: seq<Word>)
    ensures Sum(Zeros(|p|), p) == p
  {
    hide Plus;
    forall i | 0 <= i < |p| ensures Sum(Zeros(|p|), p)[i] == p[i] { PlusLaws(p[i], 0, 0); }
  }

  lemma SumAssociates(p: seq<Word>, q: seq<Word>, r: seq<Word>)
    requires |p| == |q| == |r|
    ensures Sum(Sum(p, q), r) == Sum(p, Sum(q, r))
  {
    hide Plus;
    forall i | 0 <= i < |p| ensures Sum(Sum(p, q), r)[i] == Sum(p, Sum(q, r))[i] { PlusLaws(p[i], q[i], r[i]); }
  }

  lemma SumCancels(p: seq<Word>, q: seq<Word>)
    requires |p| == |q|
    ensures Sum(Sum(p, q), q) == p && Sum(p, Sum(p, q)) == q && Sum(p, q) == Sum(q, p)
  {
    hide Plus;
    forall i | 0 <= i < |p|
      ensures Sum(Sum(p, q), q)[i] == p[i] && Sum(p, Sum(p, q))[i] == q[i] && Sum(p, q)[i] == Sum(q, p)[i]
    {
      PlusLaws(p[i], q[i], 0);
      PlusLaws(q[i], p[i], 0);
      PlusLaws(p[i], p[i], q[i]);
      PlusLaws(0, p[i], 0);
      PlusLaws(q[i], 0, 0);
    }
  }

  lemma SumStarts(a: Word, p: seq<Word>, q: seq<Word>)
    requires |p| == |q|
    ensures Sum([a] + p, [0] + q) == [a] + Sum(p, q)
  {
    hide Plus;
    PlusLaws(a, 0, 0);
    forall i | 0 <= i <= |p| ensures Sum([a] + p, [0] + q)[i] == ([a] + Sum(p, q))[i] {}
  }

  // ---------------------------------------------------------------- dividing

  function Slices(a: bv32): (slices: seq<Word>)
    ensures |slices| == 6
  {
    seq(6, i requires 0 <= i < 6 => Slice(a, i))
  }

  /** The quotient: the words that leave the register at the top. */
  function Quotient(a: bv32, words: seq<Word>): (q: seq<Word>)
    ensures |q| == |words|
    decreases |words|
  {
    if words == [] then [] else [Slice(a, 0)] + Quotient(Step(a, words[0]), words[1..])
  }

  /** A step takes a multiple of the generator from what is left of the string. */
  lemma StepSubtracts(a: bv32, words: seq<Word>)
    requires words != []
    ensures Slices(Step(a, words[0])) + words[1..]
      == Sum((Slices(a) + words)[1..], Multiple(Slice(a, 0), |words| - 1))
  {
    hide Plus, Step, Times, Slice;
    var left, after := (Slices(a) + words)[1..], Slices(Step(a, words[0])) + words[1..];
    var m := Multiple(Slice(a, 0), |words| - 1);
    forall i | 0 <= i < |left| ensures after[i] == Sum(left, m)[i] {
      if i < 6 { StepDivides(a, words[0], i); } else { PlusLaws(left[i], 0, 0); }
    }
  }

  lemma NothingToDivide(dividend: seq<Word>, remainder: seq<Word>)
    requires |dividend| == 6
    ensures Divides(dividend, [], remainder) <==> remainder == dividend
  {
    hide Sum;
    assert Padded(0, remainder) == remainder;
    if |remainder| == 6 { SumWithZeros(remainder); }
  }

  lemma PaddedStarts(n: nat, p: seq<Word>)
    requires n > 0
    ensures Padded(n, p) == [0] + Padded(n - 1, p)
  {
  }

  /** A product and a remainder, by their leading coefficient. */
  lemma WholeStarts(q: seq<Word>, remainder: seq<Word>)
    requires q != []
    ensures |remainder| == 6 ==>
      Sum(Product(q), Padded(|q|, remainder))
        == [q[0]] + Sum(Multiple(q[0], |q| - 1), Sum(Product(q[1..]), Padded(|q| - 1, remainder)))
  {
    hide Sum, Padded, Multiple;
    if |remainder| == 6 {
      var m, p, z := Multiple(q[0], |q| - 1), Product(q[1..]), Padded(|q| - 1, remainder);
      PaddedStarts(|q|, remainder);
      SumStarts(q[0], Sum(m, p), z);
      SumAssociates(m, p, z);
    }
  }

  lemma SameTail(p: seq<Word>, a: Word, m: seq<Word>, rest: seq<Word>)
    requires |p| == |m| + 1 == |rest| + 1
    ensures p == [a] + Sum(m, rest) <==> p[0] == a && Sum(p[1..], m) == rest
  {
    hide Sum;
    SumCancels(m, rest);
    SumCancels(p[1..], m);
    SumCancels(m, p[1..]);
    assert p == [p[0]] + p[1..];
    if p == [a] + Sum(m, rest) { assert p[1..] == Sum(m, rest); SumCancels(rest, m); }
  }

  lemma OneDivision(a: bv32, words: seq<Word>, quotient: seq<Word>, remainder: seq<Word>)
    requires |quotient| == |words| > 0
    ensures Divides(Slices(a) + words, quotient, remainder)
      <==> quotient[0] == Slice(a, 0) && Divides(Slices(Step(a, words[0])) + words[1..], quotient[1..], remainder)
  {
    hide Plus, Step, Times, Slice, Multiple, Product, Sum, Padded;
    var n := |words|;
    if |remainder| == 6 {
      WholeStarts(quotient, remainder);
      StepSubtracts(a, words);
      SameTail(Slices(a) + words, quotient[0], Multiple(quotient[0], n - 1),
        Sum(Product(quotient[1..]), Padded(n - 1, remainder)));
    }
  }

  /**
   Dividing by the generator has one outcome: the quotient is what left the register and the remainder
   what is left in it.
   */
  lemma {:induction false} RegisterDivides(a: bv32, words: seq<Word>, quotient: seq<Word>, remainder: seq<Word>)
    requires |quotient| == |words|
    ensures Divides(Slices(a) + words, quotient, remainder)
      <==> quotient == Quotient(a, words) && remainder == Slices(Run(a, words))
    decreases |words|
  {
    hide Step, Slice, Slices, Divides;
    if words == [] {
      assert Slices(a) + words == Slices(a) && quotient == [];
      NothingToDivide(Slices(a), remainder);
    } else {
      OneDivision(a, words, quotient, remainder);
      RegisterDivides(Step(a, words[0]), words[1..], quotient[1..], remainder);
      assert quotient == [quotient[0]] + quotient[1..];
      assert Quotient(a, words)[1..] == Quotient(Step(a, words[0]), words[1..]);
    }
  }

  /** One, and then the words: what the checksum is taken of, with room for the first remainder. */
  function Dividend(words: seq<Word>): (p: seq<Word>)
    ensures |p| == 6 + |words|
  {
    Zeros(5) + [1] + words
  }

  lemma OneInTheRegister()
    ensures Slices(1) == Zeros(5) + [1]
  {
  }

  /**
   The theorem: the register ends with the remainder, and the only one, of the whole string divided by
   the generator.
   */
  lemma PolymodIsTheRemainder(words: seq<Word>, remainder: seq<Word>)
    ensures (exists quotient :: |quotient| == |words| && Divides(Dividend(words), quotient, remainder))
      <==> remainder == Slices(Polymod(words))
  {
    hide Divides, Slices, Run;
    OneInTheRegister();
    forall quotient: seq<Word> | |quotient| == |words|
      ensures Divides(Dividend(words), quotient, remainder)
        <==> quotient == Quotient(1, words) && remainder == Slices(Polymod(words))
    {
      RegisterDivides(1, words, quotient, remainder);
    }
    assert |Quotient(1, words)| == |words|;
  }
}
