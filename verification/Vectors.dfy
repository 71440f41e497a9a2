/**
 The checksum and its alphabet against a string the standard gives: the third of the valid ones in
 section "Test vectors" of BIP 173.
 */
module Vectors {
  import opened Bech32
  import opened Bech32Strings

  const HRP: string := "abcdef"

  /** What follows the separator: the words from 0 to 31 in turn, and six of checksum. */
  function Data(): seq<Word> {
    Alphabet() + Checksum()
  }

  function Alphabet(): (words: seq<Word>)
    ensures |words| == 32
    ensures forall i :: 0 <= i < 32 ==> words[i] == i as Word
  {
    seq(32, i requires 0 <= i < 32 => i as Word)
  }

  function Checksum(): seq<Word> {
    [27, 0, 0, 0, 6, 14]
  }

  lemma AlphabetIsSpelled()
    ensures Chars(Alphabet()) == "qpzry9x8gf2tvdw0s3jn54khce6mua7l"
  {
    hide CHARSET;
    CharsetLength();
    var words := Alphabet();
    forall i | 0 <= i < 32 ensures Chars(words)[i] == CHARSET[i] {
      assert words[i] as int == i;
    }
    assert Chars(words) == CHARSET;
    CharsetIs();
  }

  lemma CharsetIs()
    ensures CHARSET == "qpzry9x8gf2tvdw0s3jn54khce6mua7l"
  {
  }

  function Three(a: bv32, u: Word, v: Word, w: Word): bv32 {
    Step(Step(Step(a, u), v), w)
  }

  lemma FirstSteps()
    ensures Three(0x1, 3, 3, 3) == 0x8c63
    ensures Three(0x8c63, 3, 3, 3) == 0x3d5bdbd1
    ensures Three(0x3d5bdbd1, 0, 1, 2) == 0x17456f7b
    ensures Three(0x17456f7b, 3, 4, 5) == 0x266635a8
    ensures Three(0x266635a8, 6, 0, 1) == 0x30018ce4
    ensures Three(0x30018ce4, 2, 3, 4) == 0x28db67b3
    ensures Three(0x28db67b3, 5, 6, 7) == 0x11e88668
    ensures Three(0x11e88668, 8, 9, 10) == 0x2e301b62
    ensures Three(0x2e301b62, 11, 12, 13) == 0x212c0d6a
  {
  }

  lemma LastSteps()
    ensures Three(0x212c0d6a, 14, 15, 16) == 0x3311a03e
    ensures Three(0x3311a03e, 17, 18, 19) == 0x28166541
    ensures Three(0x28166541, 20, 21, 22) == 0xc8c6efb
    ensures Three(0xc8c6efb, 23, 24, 25) == 0x3f0597ac
    ensures Three(0x3f0597ac, 26, 27, 28) == 0x9853657
    ensures Three(0x9853657, 29, 30, 31) == 0x1a0d3656
    ensures Three(0x1a0d3656, 27, 0, 0) == 0x1f82a53f
    ensures Three(0x1f82a53f, 0, 6, 14) == 0x1
  {
  }

  lemma OnByThree(a: bv32, words: seq<Word>, at: nat, u: Word, v: Word, w: Word)
    requires at + 3 <= |words| && words[at] == u && words[at + 1] == v && words[at + 2] == w
    ensures Run(a, words[at..]) == Run(Three(a, u, v, w), words[at + 3..])
  {
    hide Step;
    assert words[at..][1..] == words[at + 1..] && words[at + 1..][1..] == words[at + 2..];
    assert words[at + 2..][1..] == words[at + 3..];
    assert Run(a, words[at..]) == Run(Step(a, u), words[at + 1..]);
    assert Run(Step(a, u), words[at + 1..]) == Run(Step(Step(a, u), v), words[at + 2..]);
  }

  /** The words the checksum is taken of. */
  ghost predicate Spelled(words: seq<Word>) {
    && |words| == 51
    && words[..13] == [3, 3, 3, 3, 3, 3, 0, 1, 2, 3, 4, 5, 6]
    && (forall i :: 13 <= i < 45 ==> words[i] == (i - 13) as Word)
    && words[45..] == [27, 0, 0, 0, 6, 14]
  }

  lemma AllSpelled()
    ensures Ascii(HRP) && Spelled(ExpandedHrp(HRP) + Data())
  {
  }

  lemma Unspelled(words: seq<Word>)
    requires Spelled(words)
    ensures |words| == 51
    ensures words[0] == 3 && words[1] == 3 && words[2] == 3 && words[3] == 3 && words[4] == 3 && words[5] == 3
    ensures words[6] == 0 && words[7] == 1 && words[8] == 2 && words[9] == 3 && words[10] == 4 && words[11] == 5
    ensures words[12] == 6 && words[45] == 27 && words[46] == 0 && words[47] == 0 && words[48] == 0
    ensures words[49] == 6 && words[50] == 14
    ensures forall i :: 13 <= i < 45 ==> words[i] == (i - 13) as Word
  {
    assert forall i :: 0 <= i < 13 ==> words[i] == words[..13][i];
    assert forall i :: 45 <= i < 51 ==> words[i] == words[45..][i - 45];
  }

  lemma RunOfPrefix(words: seq<Word>)
    requires Spelled(words)
    ensures Run(0x1, words[0..]) == Run(0x30018ce4, words[15..])
  {
    hide Three, Run, Spelled;
    Unspelled(words);
    FirstSteps();
    OnByThree(0x1, words, 0, 3, 3, 3);
    OnByThree(0x8c63, words, 3, 3, 3, 3);
    OnByThree(0x3d5bdbd1, words, 6, 0, 1, 2);
    OnByThree(0x17456f7b, words, 9, 3, 4, 5);
    OnByThree(0x266635a8, words, 12, 6, 0, 1);
  }

  lemma RunOfLowWords(words: seq<Word>)
    requires Spelled(words)
    ensures Run(0x30018ce4, words[15..]) == Run(0x212c0d6a, words[27..])
  {
    hide Three, Run, Spelled;
    Unspelled(words);
    FirstSteps();
    OnByThree(0x30018ce4, words, 15, 2, 3, 4);
    OnByThree(0x28db67b3, words, 18, 5, 6, 7);
    OnByThree(0x11e88668, words, 21, 8, 9, 10);
    OnByThree(0x2e301b62, words, 24, 11, 12, 13);
  }

  lemma RunOfHighWords(words: seq<Word>)
    requires Spelled(words)
    ensures Run(0x212c0d6a, words[27..]) == Run(0x3f0597ac, words[39..])
  {
    hide Three, Run, Spelled;
    Unspelled(words);
    LastSteps();
    OnByThree(0x212c0d6a, words, 27, 14, 15, 16);
    OnByThree(0x3311a03e, words, 30, 17, 18, 19);
    OnByThree(0x28166541, words, 33, 20, 21, 22);
    OnByThree(0xc8c6efb, words, 36, 23, 24, 25);
  }

  lemma RunOfChecksum(words: seq<Word>)
    requires Spelled(words)
    ensures Run(0x3f0597ac, words[39..]) == Run(0x1, words[51..])
  {
    hide Three, Run, Spelled;
    Unspelled(words);
    LastSteps();
    OnByThree(0x3f0597ac, words, 39, 26, 27, 28);
    OnByThree(0x9853657, words, 42, 29, 30, 31);
    OnByThree(0x1a0d3656, words, 45, 27, 0, 0);
    OnByThree(0x1f82a53f, words, 48, 0, 6, 14);
  }

  lemma RunOfSpelled(words: seq<Word>)
    requires Spelled(words)
    ensures Polymod(words) == 1
  {
    hide Run;
    RunOfPrefix(words);
    RunOfLowWords(words);
    RunOfHighWords(words);
    RunOfChecksum(words);
    assert words[0..] == words && words[51..] == [];
    RunOfNothing();
  }

  lemma RunOfNothing()
    ensures Run(1, []) == 1
  {
  }

  /** The string checks, letter for letter. */
  lemma VectorChecks()
    ensures Ascii(HRP) && Checks(HRP, Data())
    ensures Chars(Data()) == "qpzry9x8gf2tvdw0s3jn54khce6mua7l" + "mqqqxw"
  {
    hide Polymod, CHARSET, Chars, ExpandedHrp, Alphabet, Checksum, Spelled;
    AllSpelled();
    RunOfSpelled(ExpandedHrp(HRP) + Data());
    AlphabetIsSpelled();
    ChecksumIsSpelled();
    CharsConcat(Alphabet(), Checksum());
  }

  lemma CharsConcat(u: seq<Word>, v: seq<Word>)
    ensures Chars(u + v) == Chars(u) + Chars(v)
  {
    hide CharOf;
  }

  lemma ChecksumIsSpelled()
    ensures Chars(Checksum()) == "mqqqxw"
  {
  }
}
